// Pruning credits every record exactly once, and bounded clock skew is why the ten-minute margin is
// enough for that.
module ExactlyOnce {
  import opened Basics
  import opened Stamps
  import opened World
  import opened Stubs
  import opened Sums
  import opened Paging
  import opened Transactions
  import opened Moves
  import opened Invariants
  import opened Conservation
  import opened Runs

  // ---- what is credited ----

  /** The pay records a move credits: the page of a pay prune. */
  function PaysTaken(w: World, env: Env, m: Move): seq<string> {
    if m.MPayPrune? then Page(RowsOfPays(w, env, m.a, m.end)) else []
  }

  function FeesTaken(w: World, env: Env, m: Move): seq<string> {
    if m.MFeePrune? then Page(RowsOfFees(w, env, m.code, m.end)) else []
  }

  /** The pay records credited in a run, one entry for each credit. */
  function PayCredits(w: World, es: seq<Event>): seq<string>
    decreases |es|
  {
    if es == [] then []
    else
      var x, e := Run(w, es[..|es| - 1]), es[|es| - 1];
      PayCredits(w, es[..|es| - 1]) + if Succeeds(x, e) then PaysTaken(x, e.env, MoveOf(x, e.env, e.tx)) else []
  }

  function FeeCredits(w: World, es: seq<Event>): seq<string>
    decreases |es|
  {
    if es == [] then []
    else
      var x, e := Run(w, es[..|es| - 1]), es[|es| - 1];
      FeeCredits(w, es[..|es| - 1]) + if Succeeds(x, e) then FeesTaken(x, e.env, MoveOf(x, e.env, e.tx)) else []
  }

  /** A pay record the merchant is still owed. */
  predicate PayOpen(w: World, id: string) {
    id in w.book.pays && w.book.pays[id].createdTime > PayCursor(w.book.balances, w.book.pays[id].merchant)
  }

  predicate FeeOpen(w: World, id: string) {
    id in w.book.fees && w.book.fees[id].createdTime > FeeCursor(w, w.book.fees[id].code)
  }

  /** Every record added from w to w' is above its cursor. */
  ghost predicate NewOpen(w: World, w': World) {
    && (forall id :: id in w'.book.pays && id !in w.book.pays ==> PayOpen(w', id))
    && (forall id :: id in w'.book.fees && id !in w.book.fees ==> FeeOpen(w', id))
  }

  ghost predicate Timely(w: World, e: Event) {
    Succeeds(w, e) ==> PageClean(w, e.env, MoveOf(w, e.env, e.tx)) && NewOpen(w, Next(w, e.env, e.tx))
  }

  ghost predicate TimelyRun(w: World, es: seq<Event>)
    decreases |es|
  {
    es == [] || (TimelyRun(w, es[..|es| - 1]) && Timely(Run(w, es[..|es| - 1]), es[|es| - 1]))
  }

  // ---- one move ----

  lemma {:induction false} DistinctCount(s: seq<string>, id: string)
    requires Distinct(s)
    ensures multiset(s)[id] == Once(id in s)
    decreases |s|
  {
    if s != [] {
      var front, last := s[..|s| - 1], s[|s| - 1];
      DistinctCount(front, id);
      assert s == front + [last];
      assert last !in front;
    }
  }

  /** What a move takes was open before and is not open after; everything else stays as open as it was. */
  ghost predicate PaysSettled(w: World, env: Env, m: Move, w': World) {
    forall id :: id in w.book.pays ==>
      id in w'.book.pays && multiset(PaysTaken(w, env, m))[id] + Once(PayOpen(w', id)) == Once(PayOpen(w, id))
  }

  ghost predicate FeesSettled(w: World, env: Env, m: Move, w': World) {
    forall id :: id in w.book.fees ==>
      id in w'.book.fees && multiset(FeesTaken(w, env, m))[id] + Once(FeeOpen(w', id)) == Once(FeeOpen(w, id))
  }

  /** Records whose cursor stays are as open as before. */
  lemma KeptPays(w: World, env: Env, m: Move, w': World)
    requires Grows(w, env, w') && !m.MPayPrune?
    requires forall a :: PayCursor(w'.book.balances, a) == PayCursor(w.book.balances, a)
    ensures PaysSettled(w, env, m, w')
  {
  }

  lemma KeptFees(w: World, env: Env, m: Move, w': World)
    requires Grows(w, env, w') && !m.MFeePrune?
    requires forall c :: FeeCursor(w', c) == FeeCursor(w, c)
    ensures FeesSettled(w, env, m, w')
  {
  }

  lemma KeptCursorTimes(w: World, w': World)
    requires CursorsKept(w, w') && w.book.balances.Keys <= w'.book.balances.Keys
    ensures forall a :: PayCursor(w'.book.balances, a) == PayCursor(w.book.balances, a)
    ensures forall c :: FeeCursor(w', c) == FeeCursor(w, c)
  {
    assert CursorOf("") == 0;
  }

  /** A clean page takes exactly the records its cursor passes. */
  lemma PageSettles(times: map<string, Time>, start: Time, end: Time, rows: seq<string>, id: string)
    requires Answers(times, start, end, rows) && rows != [] && CleanBoundary(times, rows)
    ensures PageEnd(rows) in times && start < times[PageEnd(rows)] <= end
    ensures id in times ==>
              multiset(Page(rows))[id] + Once(times[id] > times[PageEnd(rows)]) == Once(times[id] > start)
    ensures id !in times ==> multiset(Page(rows))[id] == 0
  {
    PageIsConsumed(times, start, end, rows);
    PageSplitsWindow(times, start, end, rows);
    DistinctCount(Page(rows), id);
  }

  lemma PrunedPaysSettled(w: World, env: Env, a: Address, end: Time)
    requires IdsOk(w) && Enabled(w, env, MPayPrune(a, end)) && PageClean(w, env, MPayPrune(a, end)) &&
             Faithful(env.query)
    ensures PaysSettled(w, env, MPayPrune(a, end), Apply(w, env, MPayPrune(a, end)))
    ensures forall c :: FeeCursor(Apply(w, env, MPayPrune(a, end)), c) == FeeCursor(w, c)
  {
    var w', rows := Apply(w, env, MPayPrune(a, end)), RowsOfPays(w, env, a, end);
    PayPruneTimes(w, env, a, end);
    forall id | id in w.book.pays
      ensures multiset(Page(rows))[id] + Once(PayOpen(w', id)) == Once(PayOpen(w, id))
    {
      PageSettles(PayTimes(w.book.pays, a), PayCursor(w.book.balances, a), end, rows, id);
    }
  }

  lemma PrunedFeesSettled(w: World, env: Env, code: string, end: Time)
    requires IdsOk(w) && Enabled(w, env, MFeePrune(code, end)) && PageClean(w, env, MFeePrune(code, end)) &&
             Faithful(env.query)
    ensures FeesSettled(w, env, MFeePrune(code, end), Apply(w, env, MFeePrune(code, end)))
    ensures forall a :: PayCursor(Apply(w, env, MFeePrune(code, end)).book.balances, a) == PayCursor(w.book.balances, a)
  {
    var w', rows := Apply(w, env, MFeePrune(code, end)), RowsOfFees(w, env, code, end);
    FeePruneTimes(w, env, code, end);
    forall id | id in w.book.fees
      ensures multiset(Page(rows))[id] + Once(FeeOpen(w', id)) == Once(FeeOpen(w, id))
    {
      PageSettles(FeeTimes(w.book.fees, code), FeeCursor(w, code), end, rows, id);
    }
  }

  lemma MoveSettles(w: World, env: Env, m: Move)
    requires Inv(w) && NewIds(w, env) && Enabled(w, env, m) && Faithful(env.query) && PageClean(w, env, m)
    ensures PaysSettled(w, env, m, Apply(w, env, m)) && FeesSettled(w, env, m, Apply(w, env, m))
  {
    var w' := Apply(w, env, m);
    MoveGrows(w, env, m);
    if m.MPayPrune? {
      PrunedPaysSettled(w, env, m.a, m.end);
      KeptFees(w, env, m, w');
    } else if m.MFeePrune? {
      PrunedFeesSettled(w, env, m.code, m.end);
      KeptPays(w, env, m, w');
    } else {
      OnlyPrunesMoveCursors(w, env, m);
      KeptCursorTimes(w, w');
      KeptPays(w, env, m, w');
      KeptFees(w, env, m, w');
    }
  }

  lemma TakenExist(w: World, env: Env, m: Move, id: string)
    requires Enabled(w, env, m) && Faithful(env.query)
    ensures id in PaysTaken(w, env, m) ==> id in w.book.pays
    ensures id in FeesTaken(w, env, m) ==> id in w.book.fees
  {
    if m.MPayPrune? {
      var rows := RowsOfPays(w, env, m.a, m.end);
      assert Answers(PayTimes(w.book.pays, m.a), PayCursor(w.book.balances, m.a), m.end, rows);
      assert id in Page(rows) ==> id in rows;
    } else if m.MFeePrune? {
      var rows := RowsOfFees(w, env, m.code, m.end);
      assert Answers(FeeTimes(w.book.fees, m.code), FeeCursor(w, m.code), m.end, rows);
      assert id in Page(rows) ==> id in rows;
    }
  }

  // ---- whole runs ----

  /** A pay record credited in a run was there, and the record is worth a credit: it was open at the
      start of the run, or filed during it. */
  predicate PayOwed(w: World, id: string) {
    id !in w.book.pays || PayOpen(w, id)
  }

  predicate FeeOwed(w: World, id: string) {
    id !in w.book.fees || FeeOpen(w, id)
  }

  lemma TakenAllExist(w: World, env: Env, m: Move)
    requires Enabled(w, env, m) && Faithful(env.query)
    ensures forall id :: id in PaysTaken(w, env, m) ==> id in w.book.pays
    ensures forall id :: id in FeesTaken(w, env, m) ==> id in w.book.fees
  {
    forall id
      ensures id in PaysTaken(w, env, m) ==> id in w.book.pays
      ensures id in FeesTaken(w, env, m) ==> id in w.book.fees
    {
      TakenExist(w, env, m, id);
    }
  }

  /** Using up the transaction id settles nothing. */
  lemma CommitSettlesNothing(w: World, env: Env, m: Move, w': World, txs: set<string>)
    requires PaysSettled(w, env, m, w') && FeesSettled(w, env, m, w')
    ensures PaysSettled(w, env, m, w'.(txs := txs)) && FeesSettled(w, env, m, w'.(txs := txs))
  {
  }

  lemma StepSettles(w: World, e: Event)
    requires Inv(w) && Admitted(w, e.env) && Timely(w, e) && Succeeds(w, e)
    ensures var w', m := Next(w, e.env, e.tx), MoveOf(w, e.env, e.tx);
            Enabled(w, e.env, m) && PaysSettled(w, e.env, m, w') && FeesSettled(w, e.env, m, w') && NewOpen(w, w') &&
            (forall id :: id in PaysTaken(w, e.env, m) ==> id in w.book.pays) &&
            (forall id :: id in FeesTaken(w, e.env, m) ==> id in w.book.fees)
  {
    var m := MoveOf(w, e.env, e.tx);
    InvStep(w, e.env, e.tx);
    MoveSettles(w, e.env, m);
    CommitSettlesNothing(w, e.env, m, Apply(w, e.env, m), w.txs + {e.env.txId});
    TakenAllExist(w, e.env, m);
  }

  /** Never twice and never skipped: in every timely run each owed pay record has been credited by
      exactly one prune or is still above its merchant's cursor, and no other record is credited. */
  lemma {:induction false} PaysCreditedOnce(w: World, es: seq<Event>, id: string)
    requires Inv(w) && AdmittedRun(w, es) && TimelyRun(w, es)
    ensures var w' := Run(w, es);
            multiset(PayCredits(w, es))[id] + Once(PayOpen(w', id)) == Once(id in w'.book.pays && PayOwed(w, id))
    ensures id in w.book.pays ==> id in Run(w, es).book.pays
    decreases |es|
  {
    if es != [] {
      var front, e := es[..|es| - 1], es[|es| - 1];
      var x := Run(w, front);
      PaysCreditedOnce(w, front, id);
      RunInv(w, front);
      if Succeeds(x, e) {
        StepSettles(x, e);
        assert id in PaysTaken(x, e.env, MoveOf(x, e.env, e.tx)) <==>
               multiset(PaysTaken(x, e.env, MoveOf(x, e.env, e.tx)))[id] > 0;
      }
    }
  }

  lemma {:induction false} FeesCreditedOnce(w: World, es: seq<Event>, id: string)
    requires Inv(w) && AdmittedRun(w, es) && TimelyRun(w, es)
    ensures var w' := Run(w, es);
            multiset(FeeCredits(w, es))[id] + Once(FeeOpen(w', id)) == Once(id in w'.book.fees && FeeOwed(w, id))
    ensures id in w.book.fees ==> id in Run(w, es).book.fees
    decreases |es|
  {
    if es != [] {
      var front, e := es[..|es| - 1], es[|es| - 1];
      var x := Run(w, front);
      FeesCreditedOnce(w, front, id);
      RunInv(w, front);
      if Succeeds(x, e) {
        StepSettles(x, e);
        assert id in FeesTaken(x, e.env, MoveOf(x, e.env, e.tx)) <==>
               multiset(FeesTaken(x, e.env, MoveOf(x, e.env, e.tx)))[id] > 0;
      }
    }
  }

  // ---- never twice, in any run ----

  /** Ties or not, what a page takes was above the old cursor and is not above the new one. */
  lemma PageClosesOnce(times: map<string, Time>, start: Time, end: Time, rows: seq<string>, id: string)
    requires Answers(times, start, end, rows) && rows != []
    ensures PageEnd(rows) in times && start < times[PageEnd(rows)] <= end
    ensures id in times ==> multiset(Page(rows))[id] + Once(times[id] > times[PageEnd(rows)]) <= Once(times[id] > start)
    ensures id !in times ==> multiset(Page(rows))[id] == 0
  {
    PageIsConsumed(times, start, end, rows);
    DistinctCount(Page(rows), id);
  }

  ghost predicate PaysClosed(w: World, env: Env, m: Move, w': World) {
    forall id :: id in w.book.pays ==>
      id in w'.book.pays && multiset(PaysTaken(w, env, m))[id] + Once(PayOpen(w', id)) <= Once(PayOpen(w, id))
  }

  ghost predicate FeesClosed(w: World, env: Env, m: Move, w': World) {
    forall id :: id in w.book.fees ==>
      id in w'.book.fees && multiset(FeesTaken(w, env, m))[id] + Once(FeeOpen(w', id)) <= Once(FeeOpen(w, id))
  }

  lemma PayPruneCloses(w: World, env: Env, a: Address, end: Time)
    requires IdsOk(w) && Enabled(w, env, MPayPrune(a, end)) && Faithful(env.query)
    ensures PaysClosed(w, env, MPayPrune(a, end), Apply(w, env, MPayPrune(a, end)))
  {
    var w', rows := Apply(w, env, MPayPrune(a, end)), RowsOfPays(w, env, a, end);
    PayPruneCursor(w, env, a, end);
    PayPruneTimes(w, env, a, end);
    forall id | id in w.book.pays
      ensures multiset(Page(rows))[id] + Once(PayOpen(w', id)) <= Once(PayOpen(w, id))
    {
      PageClosesOnce(PayTimes(w.book.pays, a), PayCursor(w.book.balances, a), end, rows, id);
    }
  }

  lemma FeePruneCloses(w: World, env: Env, code: string, end: Time)
    requires IdsOk(w) && Enabled(w, env, MFeePrune(code, end)) && Faithful(env.query)
    ensures FeesClosed(w, env, MFeePrune(code, end), Apply(w, env, MFeePrune(code, end)))
  {
    var w', rows := Apply(w, env, MFeePrune(code, end)), RowsOfFees(w, env, code, end);
    FeePruneCursor(w, env, code, end);
    FeePruneTimes(w, env, code, end);
    forall id | id in w.book.fees
      ensures multiset(Page(rows))[id] + Once(FeeOpen(w', id)) <= Once(FeeOpen(w, id))
    {
      PageClosesOnce(FeeTimes(w.book.fees, code), FeeCursor(w, code), end, rows, id);
    }
  }

  lemma MoveCloses(w: World, env: Env, m: Move)
    requires Inv(w) && NewIds(w, env) && Enabled(w, env, m) && Faithful(env.query)
    ensures PaysClosed(w, env, m, Apply(w, env, m)) && FeesClosed(w, env, m, Apply(w, env, m))
  {
    var w' := Apply(w, env, m);
    MoveGrows(w, env, m);
    if m.MPayPrune? {
      PayPruneCloses(w, env, m.a, m.end);
      PayPruneTimes(w, env, m.a, m.end);
      KeptFees(w, env, m, w');
    } else if m.MFeePrune? {
      FeePruneCloses(w, env, m.code, m.end);
      FeePruneTimes(w, env, m.code, m.end);
      KeptPays(w, env, m, w');
    } else {
      OnlyPrunesMoveCursors(w, env, m);
      KeptCursorTimes(w, w');
      KeptPays(w, env, m, w');
      KeptFees(w, env, m, w');
    }
  }

  lemma CommitClosesNothing(w: World, env: Env, m: Move, w': World, txs: set<string>)
    requires PaysClosed(w, env, m, w') && FeesClosed(w, env, m, w')
    ensures PaysClosed(w, env, m, w'.(txs := txs)) && FeesClosed(w, env, m, w'.(txs := txs))
  {
  }

  lemma StepCloses(w: World, e: Event)
    requires Inv(w) && Admitted(w, e.env) && Succeeds(w, e)
    ensures var w', m := Next(w, e.env, e.tx), MoveOf(w, e.env, e.tx);
            Enabled(w, e.env, m) && PaysClosed(w, e.env, m, w') && FeesClosed(w, e.env, m, w') &&
            (forall id :: id in PaysTaken(w, e.env, m) ==> id in w.book.pays) &&
            (forall id :: id in FeesTaken(w, e.env, m) ==> id in w.book.fees)
  {
    var m := MoveOf(w, e.env, e.tx);
    InvStep(w, e.env, e.tx);
    MoveCloses(w, e.env, m);
    CommitClosesNothing(w, e.env, m, Apply(w, e.env, m), w.txs + {e.env.txId});
    TakenAllExist(w, e.env, m);
  }

  /** In every run whatever, no pay record is credited twice, none that is still open has been credited,
      and none that was closed at the start is ever credited or open again. */
  lemma {:induction false} PaysNeverTwice(w: World, es: seq<Event>, id: string)
    requires Inv(w) && AdmittedRun(w, es)
    ensures multiset(PayCredits(w, es))[id] + Once(PayOpen(Run(w, es), id)) <=
            Once(id in Run(w, es).book.pays && PayOwed(w, id))
    ensures id in w.book.pays ==> id in Run(w, es).book.pays
    decreases |es|
  {
    if es != [] {
      var front, e := es[..|es| - 1], es[|es| - 1];
      var x := Run(w, front);
      PaysNeverTwice(w, front, id);
      RunInv(w, front);
      if Succeeds(x, e) {
        StepCloses(x, e);
        assert id in PaysTaken(x, e.env, MoveOf(x, e.env, e.tx)) <==>
               multiset(PaysTaken(x, e.env, MoveOf(x, e.env, e.tx)))[id] > 0;
      }
    }
  }

  lemma {:induction false} FeesNeverTwice(w: World, es: seq<Event>, id: string)
    requires Inv(w) && AdmittedRun(w, es)
    ensures multiset(FeeCredits(w, es))[id] + Once(FeeOpen(Run(w, es), id)) <=
            Once(id in Run(w, es).book.fees && FeeOwed(w, id))
    ensures id in w.book.fees ==> id in Run(w, es).book.fees
    decreases |es|
  {
    if es != [] {
      var front, e := es[..|es| - 1], es[|es| - 1];
      var x := Run(w, front);
      FeesNeverTwice(w, front, id);
      RunInv(w, front);
      if Succeeds(x, e) {
        StepCloses(x, e);
        assert id in FeesTaken(x, e.env, MoveOf(x, e.env, e.tx)) <==>
               multiset(FeesTaken(x, e.env, MoveOf(x, e.env, e.tx)))[id] > 0;
      }
    }
  }

  /** A record at or below its cursor is lost for good: no later run credits it or opens it again. */
  lemma ClosedForGood(w: World, es: seq<Event>, id: string)
    requires Inv(w) && AdmittedRun(w, es)
    ensures id in w.book.pays && !PayOpen(w, id) ==> id !in PayCredits(w, es) && !PayOpen(Run(w, es), id)
    ensures id in w.book.fees && !FeeOpen(w, id) ==> id !in FeeCredits(w, es) && !FeeOpen(Run(w, es), id)
  {
    PaysNeverTwice(w, es, id);
    FeesNeverTwice(w, es, id);
    assert id in PayCredits(w, es) <==> multiset(PayCredits(w, es))[id] > 0;
    assert id in FeeCredits(w, es) <==> multiset(FeeCredits(w, es))[id] > 0;
  }
}
