// What a prune may take, in the times of the records and of the request: nothing that was pruned before,
// nothing after the second it was given, and nothing of the last ten minutes when it plays safe.
module Windows {
  import opened Basics
  import opened World
  import opened Stubs
  import opened Sums
  import opened Paging
  import opened Transactions
  import opened Moves
  import opened Invariants
  import opened Runs
  import opened Series
  import opened ExactlyOnce
  import opened Rights

  /** A record of this time is in the window: after the last one pruned, and up to the second given, or the
      present when none is given; and ten minutes old when the prune plays safe. */
  predicate InWindow(ts: Time, safe: bool, seconds: Option<int>, last: Option<Time>, t: Time) {
    && (last.Some? ==> last.value < t)
    && t <= (match seconds case Some(s) => s * 1_000_000_000 case None => ts)
    && (safe ==> t <= ts - 600_000_000_000)
  }

  // ---- pays ----

  /** The time of the record that a merchant's last prune ended with. */
  function LastPay(w: World, a: Address): Option<Time> {
    if a in w.book.balances && w.book.balances[a].lastPruned in w.book.pays
    then Some(w.book.pays[w.book.balances[a].lastPruned].createdTime) else None
  }

  /** A pay record that a prune of its merchant's may take now. */
  predicate PayDue(w: World, env: Env, a: Address, safe: bool, seconds: Option<int>, id: string) {
    id in w.book.pays && w.book.pays[id].merchant == a &&
    InWindow(env.ts, safe, seconds, LastPay(w, a), w.book.pays[id].createdTime)
  }

  /** The page of a prune: 900 of the due records at most, and all of them if there are fewer; of no two the
      later is taken and the earlier left. */
  ghost predicate TakesDue(due: set<string>, times: map<string, Time>, page: seq<string>) {
    && Distinct(page) && |page| <= 900
    && (forall id :: id in page ==> id in due)
    && (|page| < 900 ==> forall id :: id in due ==> id in page)
    && (forall i, j :: 0 <= i < j < |page| && page[i] in times && page[j] in times ==> times[page[i]] <= times[page[j]])
    && (forall id, other :: id in page && other in due && other !in page && id in times && other in times ==>
          times[id] <= times[other])
  }

  ghost function DuePays(w: World, env: Env, a: Address, safe: bool, seconds: Option<int>): set<string> {
    set id | id in w.book.pays && PayDue(w, env, a, safe, seconds, id)
  }

  lemma PayCursorIsLast(w: World, a: Address, t: Time)
    requires IdsOk(w) && CursorsOk(w) && t > 0
    ensures PayCursor(w.book.balances, a) < t <==> (LastPay(w, a).Some? ==> LastPay(w, a).value < t)
  {
    if a in w.book.balances {
      var last := w.book.balances[a].lastPruned;
      if last != "" { StampedCursor(last, w.book.pays[last].createdTime, w.txs); }
    }
  }

  /** A prune query finds exactly the due records. */
  lemma PayRowsAreDue(w: World, env: Env, a: Address, safe: bool, seconds: Option<int>, id: string)
    requires IdsOk(w) && CursorsOk(w) && Faithful(env.query)
    ensures id in RowsOfPays(w, env, a, PruneEnd(env.ts, safe, seconds)) <==> PayDue(w, env, a, safe, seconds, id)
  {
    var end := PruneEnd(env.ts, safe, seconds);
    assert Answers(PayTimes(w.book.pays, a), PayCursor(w.book.balances, a), end, RowsOfPays(w, env, a, end));
    if id in w.book.pays { PayCursorIsLast(w, a, w.book.pays[id].createdTime); }
  }

  lemma PageTakesDue(times: map<string, Time>, start: Time, end: Time, rows: seq<string>, due: set<string>)
    requires Answers(times, start, end, rows) && forall id :: id in rows <==> id in due
    ensures TakesDue(due, times, Page(rows))
  {
    assert forall i :: 0 <= i < |rows| ==> rows[i] in rows;
    if |rows| <= 900 {
      assert Page(rows) == rows;
    } else {
      assert forall k :: 0 <= k < 900 ==> Page(rows)[k] == rows[k];
      forall id, other | id in Page(rows) && other in due && other !in Page(rows)
        ensures times[id] <= times[other]
      {
        var i :| 0 <= i < 900 && rows[i] == id;
        var j :| 0 <= j < |rows| && rows[j] == other;
        assert j >= 900;
      }
    }
  }

  lemma OneCredit(w: World, e: Event)
    ensures PayCredits(w, [e]) == (if Succeeds(w, e) then PaysTaken(w, e.env, MoveOf(w, e.env, e.tx)) else [])
    ensures FeeCredits(w, [e]) == (if Succeeds(w, e) then FeesTaken(w, e.env, MoveOf(w, e.env, e.tx)) else [])
  {
    assert [e][..|[e]| - 1] == [] && Run(w, []) == w && PayCredits(w, []) == [] && FeeCredits(w, []) == [];
  }

  lemma PayPruneIff(w: World, env: Env, a: Address, safe: bool, seconds: Option<int>)
    requires a in w.book.balances ==> ReadCursor(w.book.balances[a].lastPruned).Ok?
    requires RegistryOk(w)
    ensures PayPruneTx(w, env, a, safe, seconds).Ok? <==>
            MayAct(w, env.kid, a) && RowsOfPays(w, env, a, PruneEnd(env.ts, safe, seconds)) != []
  {
    PartiesIff(w, a, a, env.kid);
  }

  lemma PayPruneStepIff(w: World, env: Env, a: Address, safe: bool, seconds: Option<int>)
    requires RegistryOk(w)
    requires a in w.book.balances ==> ReadCursor(w.book.balances[a].lastPruned).Ok?
    ensures Step(w, env, PayPrune(a, safe, seconds)).Ok? <==>
            MayAct(w, env.kid, a) && RowsOfPays(w, env, a, PruneEnd(env.ts, safe, seconds)) != []
  {
    StepAnswers(w, env, PayPrune(a, safe, seconds));
    PayPruneIff(w, env, a, safe, seconds);
  }

  ghost predicate AnyPayDue(w: World, env: Env, a: Address, safe: bool, seconds: Option<int>) {
    exists id :: PayDue(w, env, a, safe, seconds, id)
  }

  lemma SomePayDue(w: World, env: Env, a: Address, safe: bool, seconds: Option<int>)
    requires IdsOk(w) && CursorsOk(w) && Faithful(env.query)
    ensures RowsOfPays(w, env, a, PruneEnd(env.ts, safe, seconds)) != [] <==>
            AnyPayDue(w, env, a, safe, seconds)
  {
    var rows := RowsOfPays(w, env, a, PruneEnd(env.ts, safe, seconds));
    if rows != [] {
      PayRowsAreDue(w, env, a, safe, seconds, rows[0]);
    } else if id :| PayDue(w, env, a, safe, seconds, id) {
      PayRowsAreDue(w, env, a, safe, seconds, id);
    }
  }

  /** pay/prune succeeds exactly for a holder of a usable account that has a record due. */
  lemma PayPruneSucceedsIff(w: World, env: Env, a: Address, safe: bool, seconds: Option<int>)
    requires Inv(w) && Admitted(w, env)
    ensures Step(w, env, PayPrune(a, safe, seconds)).Ok? <==>
            MayAct(w, env.kid, a) && AnyPayDue(w, env, a, safe, seconds)
  {
    if a in w.book.balances { PayCursorReads(w, a); }
    PayPruneStepIff(w, env, a, safe, seconds);
    SomePayDue(w, env, a, safe, seconds);
  }

  lemma PayPageIsDue(w: World, env: Env, a: Address, safe: bool, seconds: Option<int>)
    requires IdsOk(w) && CursorsOk(w) && Faithful(env.query)
    ensures TakesDue(DuePays(w, env, a, safe, seconds), PayTimes(w.book.pays, a),
                     Page(RowsOfPays(w, env, a, PruneEnd(env.ts, safe, seconds))))
  {
    var end := PruneEnd(env.ts, safe, seconds);
    var rows := RowsOfPays(w, env, a, end);
    assert Answers(PayTimes(w.book.pays, a), PayCursor(w.book.balances, a), end, rows);
    forall id ensures id in rows <==> id in DuePays(w, env, a, safe, seconds) {
      PayRowsAreDue(w, env, a, safe, seconds, id);
    }
    PageTakesDue(PayTimes(w.book.pays, a), PayCursor(w.book.balances, a), end, rows, DuePays(w, env, a, safe, seconds));
  }

  /** The page has records, and the last of them is where the next prune goes on. */
  predicate PayGoesOn(w: World, w': World, a: Address, page: seq<string>) {
    && page != [] && page[|page| - 1] in w.book.pays
    && LastPay(w', a) == Some(w.book.pays[page[|page| - 1]].createdTime)
  }

  lemma PayPruneMarks(w: World, env: Env, a: Address, safe: bool, seconds: Option<int>)
    requires PayPruneTx(w, env, a, safe, seconds).Ok?
    ensures var rows, b := RowsOfPays(w, env, a, PruneEnd(env.ts, safe, seconds)),
                           PayPruneTx(w, env, a, safe, seconds).value.book;
            b.pays == w.book.pays && a in b.balances && rows != [] &&
            (PageEnd(rows) != "" ==> b.balances[a].lastPruned == PageEnd(rows))
  {
  }

  lemma PayPageCredited(w: World, env: Env, a: Address, safe: bool, seconds: Option<int>)
    requires Step(w, env, PayPrune(a, safe, seconds)).Ok?
    ensures PayCredits(w, [Event(env, PayPrune(a, safe, seconds))]) ==
            Page(RowsOfPays(w, env, a, PruneEnd(env.ts, safe, seconds)))
  {
    OneCredit(w, Event(env, PayPrune(a, safe, seconds)));
  }

  lemma PayPruneAdds(w: World, w': World, env: Env, a: Address, safe: bool, seconds: Option<int>)
    requires Inv(w) && Admitted(w, env) && Step(w, env, PayPrune(a, safe, seconds)) == Ok(w')
    ensures var rows := RowsOfPays(w, env, a, PruneEnd(env.ts, safe, seconds));
            var page := Page(rows);
            && rows != [] && PageEnd(rows) in w.book.pays && PageEnd(rows) != ""
            && AmountOf(w'.book, a) == AmountOf(w.book, a) + Net(w.book.pays, page)
  {
    var end := PruneEnd(env.ts, safe, seconds);
    var rows := RowsOfPays(w, env, a, end);
    PayPruneStep(w, Event(env, PayPrune(a, safe, seconds)), a, end);
    StampedCursor(PageEnd(rows), w.book.pays[PageEnd(rows)].createdTime, w.txs);
  }

  lemma PayPruneGoesOn(w: World, w': World, env: Env, a: Address, safe: bool, seconds: Option<int>)
    requires Step(w, env, PayPrune(a, safe, seconds)) == Ok(w')
    requires var rows := RowsOfPays(w, env, a, PruneEnd(env.ts, safe, seconds));
             rows != [] && PageEnd(rows) in w.book.pays && PageEnd(rows) != ""
    ensures PayGoesOn(w, w', a, Page(RowsOfPays(w, env, a, PruneEnd(env.ts, safe, seconds))))
  {
    StepAnswers(w, env, PayPrune(a, safe, seconds));
    assert Handle(w, env, PayPrune(a, safe, seconds)) == PayPruneTx(w, env, a, safe, seconds);
    PayPruneMarks(w, env, a, safe, seconds);
  }

  /** What a prune credits is a page of the due records, the earliest first, and its merchant's balance grows
      by their amounts less their fees. */
  lemma PayPruneCreditsDue(w: World, w': World, env: Env, a: Address, safe: bool, seconds: Option<int>,
                           page: seq<string>)
    requires Inv(w) && Admitted(w, env) && Step(w, env, PayPrune(a, safe, seconds)) == Ok(w')
    requires page == PayCredits(w, [Event(env, PayPrune(a, safe, seconds))])
    ensures TakesDue(DuePays(w, env, a, safe, seconds), PayTimes(w.book.pays, a), page) && PayGoesOn(w, w', a, page)
    ensures AmountOf(w'.book, a) == AmountOf(w.book, a) + Net(w.book.pays, page)
  {
    assert page == Page(RowsOfPays(w, env, a, PruneEnd(env.ts, safe, seconds))) by {
      PayPageCredited(w, env, a, safe, seconds);
    }
    PayPageIsDue(w, env, a, safe, seconds);
    PayPruneAdds(w, w', env, a, safe, seconds);
    PayPruneGoesOn(w, w', env, a, safe, seconds);
  }

  /** This event is a prune that takes the record when it is due. */
  predicate PayTook(w: World, e: Event, id: string) {
    e.tx.PayPrune? && Succeeds(w, e) && PayDue(w, e.env, e.tx.account, e.tx.safe, e.tx.endSeconds, id)
  }

  ghost predicate EverTookPay(w: World, es: seq<Event>, id: string)
    decreases |es|
  {
    es != [] && (EverTookPay(w, es[..|es| - 1], id) || PayTook(Run(w, es[..|es| - 1]), es[|es| - 1], id))
  }

  /** Over any run: whatever is credited was due when one of the run's prunes of its merchant took it. */
  lemma {:induction false} CreditedWhenDue(w: World, es: seq<Event>, id: string)
    requires Inv(w) && AdmittedRun(w, es) && id in PayCredits(w, es)
    ensures EverTookPay(w, es, id)
    decreases |es|
  {
    var front, e := es[..|es| - 1], es[|es| - 1];
    if id in PayCredits(w, front) {
      CreditedWhenDue(w, front, id);
    } else {
      RunInv(w, front);
      PayTakenDue(Run(w, front), e, id);
    }
  }

  lemma PayTakenDue(w: World, e: Event, id: string)
    requires Inv(w) && Admitted(w, e.env) && Succeeds(w, e) && id in PaysTaken(w, e.env, MoveOf(w, e.env, e.tx))
    ensures PayTook(w, e, id)
  {
    PaysTakenBy(w, e.env, e.tx, id);
    PayRowsAreDue(w, e.env, e.tx.account, e.tx.safe, e.tx.endSeconds, id);
  }

  lemma PaysTakenBy(w: World, env: Env, tx: Tx, id: string)
    requires id in PaysTaken(w, env, MoveOf(w, env, tx))
    ensures tx.PayPrune? && id in RowsOfPays(w, env, tx.account, PruneEnd(env.ts, tx.safe, tx.endSeconds))
  {
  }

  // ---- fees ----

  /** The time of the record that a token's last fee prune ended with: the one on file, or before the first
      prune of today's chaincode the one the token itself names. */
  function LastFee(w: World, code: string): Option<Time> {
    var id := if code in w.book.lastFee then w.book.lastFee[code]
              else if code in w.tokens then w.tokens[code].lastPrunedFee else "";
    if id in w.book.fees then Some(w.book.fees[id].createdTime) else None
  }

  predicate FeeDue(w: World, env: Env, code: string, safe: bool, seconds: Option<int>, id: string) {
    id in w.book.fees && w.book.fees[id].code == code &&
    InWindow(env.ts, safe, seconds, LastFee(w, code), w.book.fees[id].createdTime)
  }

  ghost function DueFees(w: World, env: Env, code: string, safe: bool, seconds: Option<int>): set<string> {
    set id | id in w.book.fees && FeeDue(w, env, code, safe, seconds, id)
  }

  lemma FeeCursorIsLast(w: World, code: string, t: Time)
    requires IdsOk(w) && CursorsOk(w) && t > 0
    ensures FeeCursor(w, code) < t <==> (LastFee(w, code).Some? ==> LastFee(w, code).value < t)
  {
    var last := FeeCursorId(w.tokens, w.book.lastFee, code);
    if last != "" { StampedCursor(last, w.book.fees[last].createdTime, w.txs); }
  }

  lemma FeeRowsAreDue(w: World, env: Env, code: string, safe: bool, seconds: Option<int>, id: string)
    requires IdsOk(w) && CursorsOk(w) && Faithful(env.query)
    ensures id in RowsOfFees(w, env, code, PruneEnd(env.ts, safe, seconds)) <==> FeeDue(w, env, code, safe, seconds, id)
  {
    var end := PruneEnd(env.ts, safe, seconds);
    assert Answers(FeeTimes(w.book.fees, code), FeeCursor(w, code), end, RowsOfFees(w, env, code, end));
    if id in w.book.fees { FeeCursorIsLast(w, code, w.book.fees[id].createdTime); }
  }

  lemma FeePruneIff(w: World, env: Env, code: string, safe: bool, seconds: Option<int>)
    requires RegistryOk(w) && PolicyOf(w, code).Some? && PolicyOf(w, code).value.target in w.registry.accounts
    requires ReadCursor(FeeCursorId(w.tokens, w.book.lastFee, code)).Ok?
    ensures FeePruneTx(w, env, code, safe, seconds).Ok? <==>
            (env.kid, PolicyOf(w, code).value.target) in w.registry.holders &&
            RowsOfFees(w, env, code, PruneEnd(env.ts, safe, seconds)) != []
  {
  }

  lemma FeePruneStepIff(w: World, env: Env, code: string, safe: bool, seconds: Option<int>)
    requires RegistryOk(w) && TokensOk(w) && ReadCursor(FeeCursorId(w.tokens, w.book.lastFee, code)).Ok?
    ensures var r := Step(w, env, FeePrune(code, safe, seconds));
            if code !in w.tokens then r.Err?
            else if w.tokens[code].policy.None? then r == Ok(w.(txs := w.txs + {env.txId}))
            else r.Ok? <==> (env.kid, w.tokens[code].policy.value.target) in w.registry.holders &&
                            RowsOfFees(w, env, code, PruneEnd(env.ts, safe, seconds)) != []
  {
    StepAnswers(w, env, FeePrune(code, safe, seconds));
    if PolicyOf(w, code).Some? { FeePruneIff(w, env, code, safe, seconds); }
  }

  ghost predicate AnyFeeDue(w: World, env: Env, code: string, safe: bool, seconds: Option<int>) {
    exists id :: FeeDue(w, env, code, safe, seconds, id)
  }

  lemma SomeFeeDue(w: World, env: Env, code: string, safe: bool, seconds: Option<int>)
    requires IdsOk(w) && CursorsOk(w) && Faithful(env.query)
    ensures RowsOfFees(w, env, code, PruneEnd(env.ts, safe, seconds)) != [] <==>
            AnyFeeDue(w, env, code, safe, seconds)
  {
    var rows := RowsOfFees(w, env, code, PruneEnd(env.ts, safe, seconds));
    if rows != [] {
      FeeRowsAreDue(w, env, code, safe, seconds, rows[0]);
    } else if id :| FeeDue(w, env, code, safe, seconds, id) {
      FeeRowsAreDue(w, env, code, safe, seconds, id);
    }
  }

  /** fee/prune of an issued token: without a policy it succeeds and changes nothing; with one it succeeds
      exactly for a holder of the target when a fee is due. */
  lemma FeePruneSucceedsIff(w: World, env: Env, code: string, safe: bool, seconds: Option<int>)
    requires Inv(w) && Admitted(w, env)
    ensures var r := Step(w, env, FeePrune(code, safe, seconds));
            if code !in w.tokens then r.Err?
            else if w.tokens[code].policy.None? then r == Ok(w.(txs := w.txs + {env.txId}))
            else r.Ok? <==> (env.kid, w.tokens[code].policy.value.target) in w.registry.holders &&
                            AnyFeeDue(w, env, code, safe, seconds)
  {
    FeeCursorReads(w, code);
    FeePruneStepIff(w, env, code, safe, seconds);
    SomeFeeDue(w, env, code, safe, seconds);
  }

  lemma FeePageIsDue(w: World, env: Env, code: string, safe: bool, seconds: Option<int>)
    requires IdsOk(w) && CursorsOk(w) && Faithful(env.query)
    ensures TakesDue(DueFees(w, env, code, safe, seconds), FeeTimes(w.book.fees, code),
                     Page(RowsOfFees(w, env, code, PruneEnd(env.ts, safe, seconds))))
  {
    var end := PruneEnd(env.ts, safe, seconds);
    var rows := RowsOfFees(w, env, code, end);
    assert Answers(FeeTimes(w.book.fees, code), FeeCursor(w, code), end, rows);
    forall id ensures id in rows <==> id in DueFees(w, env, code, safe, seconds) {
      FeeRowsAreDue(w, env, code, safe, seconds, id);
    }
    PageTakesDue(FeeTimes(w.book.fees, code), FeeCursor(w, code), end, rows, DueFees(w, env, code, safe, seconds));
  }

  predicate FeeGoesOn(w: World, w': World, code: string, page: seq<string>) {
    && page != [] && page[|page| - 1] in w.book.fees
    && LastFee(w', code) == Some(w.book.fees[page[|page| - 1]].createdTime)
  }

  lemma FeePruneMarks(w: World, env: Env, code: string, safe: bool, seconds: Option<int>)
    requires FeePruneTx(w, env, code, safe, seconds).Ok? && PolicyOf(w, code).Some?
    ensures var rows, b := RowsOfFees(w, env, code, PruneEnd(env.ts, safe, seconds)),
                           FeePruneTx(w, env, code, safe, seconds).value.book;
            b.fees == w.book.fees && code in b.lastFee && rows != [] && b.lastFee[code] == PageEnd(rows)
  {
  }

  lemma FeePageCredited(w: World, env: Env, code: string, safe: bool, seconds: Option<int>)
    requires Step(w, env, FeePrune(code, safe, seconds)).Ok? && PolicyOf(w, code).Some?
    ensures FeeCredits(w, [Event(env, FeePrune(code, safe, seconds))]) ==
            Page(RowsOfFees(w, env, code, PruneEnd(env.ts, safe, seconds)))
  {
    OneCredit(w, Event(env, FeePrune(code, safe, seconds)));
  }

  lemma FeePruneAdds(w: World, w': World, env: Env, code: string, safe: bool, seconds: Option<int>)
    requires Inv(w) && Admitted(w, env) && Step(w, env, FeePrune(code, safe, seconds)) == Ok(w') &&
             PolicyOf(w, code).Some?
    ensures var rows := RowsOfFees(w, env, code, PruneEnd(env.ts, safe, seconds));
            var page := Page(rows);
            && rows != [] && PageEnd(rows) in w.book.fees && PageEnd(rows) != ""
            && AmountOf(w'.book, PolicyOf(w, code).value.target) ==
               AmountOf(w.book, PolicyOf(w, code).value.target) + SumOver(FeeAmounts(w.book.fees), page)
  {
    var end := PruneEnd(env.ts, safe, seconds);
    var rows := RowsOfFees(w, env, code, end);
    FeePruneStep(w, Event(env, FeePrune(code, safe, seconds)), code, end);
    StampedCursor(PageEnd(rows), w.book.fees[PageEnd(rows)].createdTime, w.txs);
  }

  lemma FeePruneGoesOn(w: World, w': World, env: Env, code: string, safe: bool, seconds: Option<int>)
    requires Step(w, env, FeePrune(code, safe, seconds)) == Ok(w') && PolicyOf(w, code).Some?
    requires var rows := RowsOfFees(w, env, code, PruneEnd(env.ts, safe, seconds));
             rows != [] && PageEnd(rows) in w.book.fees && PageEnd(rows) != ""
    ensures FeeGoesOn(w, w', code, Page(RowsOfFees(w, env, code, PruneEnd(env.ts, safe, seconds))))
  {
    StepAnswers(w, env, FeePrune(code, safe, seconds));
    assert Handle(w, env, FeePrune(code, safe, seconds)) == FeePruneTx(w, env, code, safe, seconds);
    FeePruneMarks(w, env, code, safe, seconds);
  }

  /** The same for fees: the target's balance grows by their sum. */
  lemma FeePruneCreditsDue(w: World, w': World, env: Env, code: string, safe: bool, seconds: Option<int>,
                           page: seq<string>)
    requires Inv(w) && Admitted(w, env) && Step(w, env, FeePrune(code, safe, seconds)) == Ok(w') &&
             PolicyOf(w, code).Some?
    requires page == FeeCredits(w, [Event(env, FeePrune(code, safe, seconds))])
    ensures TakesDue(DueFees(w, env, code, safe, seconds), FeeTimes(w.book.fees, code), page) &&
            FeeGoesOn(w, w', code, page)
    ensures AmountOf(w'.book, PolicyOf(w, code).value.target) ==
            AmountOf(w.book, PolicyOf(w, code).value.target) + SumOver(FeeAmounts(w.book.fees), page)
  {
    assert page == Page(RowsOfFees(w, env, code, PruneEnd(env.ts, safe, seconds))) by {
      FeePageCredited(w, env, code, safe, seconds);
    }
    FeePageIsDue(w, env, code, safe, seconds);
    FeePruneAdds(w, w', env, code, safe, seconds);
    FeePruneGoesOn(w, w', env, code, safe, seconds);
  }

  predicate FeeTook(w: World, e: Event, id: string) {
    e.tx.FeePrune? && Succeeds(w, e) && FeeDue(w, e.env, e.tx.code, e.tx.safe, e.tx.endSeconds, id)
  }

  ghost predicate EverTookFee(w: World, es: seq<Event>, id: string)
    decreases |es|
  {
    es != [] && (EverTookFee(w, es[..|es| - 1], id) || FeeTook(Run(w, es[..|es| - 1]), es[|es| - 1], id))
  }

  lemma {:induction false} FeeCreditedWhenDue(w: World, es: seq<Event>, id: string)
    requires Inv(w) && AdmittedRun(w, es) && id in FeeCredits(w, es)
    ensures EverTookFee(w, es, id)
    decreases |es|
  {
    var front, e := es[..|es| - 1], es[|es| - 1];
    if id in FeeCredits(w, front) {
      FeeCreditedWhenDue(w, front, id);
    } else {
      RunInv(w, front);
      FeeTakenDue(Run(w, front), e, id);
    }
  }

  lemma FeeTakenDue(w: World, e: Event, id: string)
    requires Inv(w) && Admitted(w, e.env) && Succeeds(w, e) && id in FeesTaken(w, e.env, MoveOf(w, e.env, e.tx))
    ensures FeeTook(w, e, id)
  {
    FeesTakenBy(w, e.env, e.tx, id);
    FeeRowsAreDue(w, e.env, e.tx.code, e.tx.safe, e.tx.endSeconds, id);
  }

  lemma FeesTakenBy(w: World, env: Env, tx: Tx, id: string)
    requires id in FeesTaken(w, env, MoveOf(w, env, tx))
    ensures tx.FeePrune? && id in RowsOfFees(w, env, tx.code, PruneEnd(env.ts, tx.safe, tx.endSeconds))
  {
  }
}
