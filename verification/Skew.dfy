// Transaction times come from the callers' clocks and may be off by five minutes either way. A prune
// with the ten-minute flag never moves a cursor past a record still to come.
module Skew {
  import opened Basics
  import opened Stamps
  import opened World
  import opened Stubs
  import opened Paging
  import opened Transactions
  import opened Moves
  import opened Invariants
  import opened Conservation
  import opened Runs
  import opened ExactlyOnce

  const SKEW: Time := 5 * MINUTE

  /** truth[i] is the time at which event i really took its place: the order of the run, with each
      transaction's own time at most five minutes from it. */
  ghost predicate Skewed(es: seq<Event>, truth: seq<Time>) {
    && |truth| == |es|
    && (forall i, j :: 0 <= i <= j < |es| ==> truth[i] <= truth[j])
    && (forall i :: 0 <= i < |es| ==> truth[i] - SKEW <= es[i].env.ts <= truth[i] + SKEW)
  }

  /** Every prune asks for the ten-minute margin. */
  predicate SafePrunes(es: seq<Event>) {
    forall i :: 0 <= i < |es| ==> (es[i].tx.PayPrune? || es[i].tx.FeePrune? ==> es[i].tx.safe)
  }

  /** No two pay records of a merchant and no two fee records of a token have the same time. */
  ghost predicate DistinctRecords(w: World) {
    && (forall a :: DistinctTimes(PayTimes(w.book.pays, a)))
    && (forall c :: DistinctTimes(FeeTimes(w.book.fees, c)))
  }

  /** Every cursor lies at or before t. */
  ghost predicate CursorsBy(w: World, t: Time) {
    && (forall a :: PayCursor(w.book.balances, a) <= t)
    && (forall c :: FeeCursor(w, c) <= t)
  }

  /** Records only grow, so what is distinct in the end was distinct before. */
  lemma DistinctBefore(w: World, env: Env, w': World)
    requires Grows(w, env, w') && DistinctRecords(w')
    ensures DistinctRecords(w)
  {
    forall a ensures DistinctTimes(PayTimes(w.book.pays, a)) {
      assert DistinctTimes(PayTimes(w'.book.pays, a));
      assert forall id :: id in PayTimes(w.book.pays, a) ==>
          id in PayTimes(w'.book.pays, a) && PayTimes(w'.book.pays, a)[id] == PayTimes(w.book.pays, a)[id];
    }
    forall c ensures DistinctTimes(FeeTimes(w.book.fees, c)) {
      assert DistinctTimes(FeeTimes(w'.book.fees, c));
      assert forall id :: id in FeeTimes(w.book.fees, c) ==>
          id in FeeTimes(w'.book.fees, c) && FeeTimes(w'.book.fees, c)[id] == FeeTimes(w.book.fees, c)[id];
    }
  }

  /** A cursor is the epoch or the time of a record on file. */
  lemma CursorIsRecord(w: World, a: Address)
    requires IdsOk(w) && CursorsOk(w) && a in w.book.balances
    ensures var id := w.book.balances[a].lastPruned;
            if id == "" then PayCursor(w.book.balances, a) == 0
            else id in w.book.pays && w.book.pays[id].merchant == a &&
                 PayCursor(w.book.balances, a) == w.book.pays[id].createdTime
  {
    var id := w.book.balances[a].lastPruned;
    if id != "" {
      StampedCursor(id, w.book.pays[id].createdTime, w.txs);
    }
  }

  lemma FeeCursorIsRecord(w: World, c: string)
    requires IdsOk(w) && CursorsOk(w)
    ensures var id := FeeCursorId(w.tokens, w.book.lastFee, c);
            if id == "" then FeeCursor(w, c) == 0
            else id in w.book.fees && w.book.fees[id].code == c && FeeCursor(w, c) == w.book.fees[id].createdTime
  {
    var id := FeeCursorId(w.tokens, w.book.lastFee, c);
    if id != "" {
      StampedCursor(id, w.book.fees[id].createdTime, w.txs);
    }
  }

  /** A record filed no earlier than its cursor is strictly later: the cursor is the time of another
      record, and times are distinct. */
  lemma NewPayOpen(w: World, env: Env, w': World, id: string)
    requires IdsOk(w) && CursorsOk(w) && Grows(w, env, w') && Stampable(env.ts)
    requires id in w'.book.pays && id !in w.book.pays
    requires var a := w'.book.pays[id].merchant;
             DistinctTimes(PayTimes(w'.book.pays, a)) &&
             PayCursor(w'.book.balances, a) == PayCursor(w.book.balances, a) <= env.ts
    ensures PayOpen(w', id)
  {
    var a := w'.book.pays[id].merchant;
    if a in w.book.balances {
      CursorIsRecord(w, a);
      var last := w.book.balances[a].lastPruned;
      if last != "" {
        assert last in PayTimes(w'.book.pays, a) && id in PayTimes(w'.book.pays, a);
      }
    }
  }

  lemma NewFeeOpen(w: World, env: Env, w': World, id: string)
    requires IdsOk(w) && CursorsOk(w) && Grows(w, env, w') && Stampable(env.ts)
    requires id in w'.book.fees && id !in w.book.fees
    requires var c := w'.book.fees[id].code;
             DistinctTimes(FeeTimes(w'.book.fees, c)) && FeeCursor(w', c) == FeeCursor(w, c) <= env.ts
    ensures FeeOpen(w', id)
  {
    var c := w'.book.fees[id].code;
    FeeCursorIsRecord(w, c);
    var last := FeeCursorId(w.tokens, w.book.lastFee, c);
    if last != "" {
      assert last in FeeTimes(w'.book.fees, c) && id in FeeTimes(w'.book.fees, c);
    }
  }

  lemma MoveFilesOpen(w: World, env: Env, m: Move)
    requires Inv(w) && NewIds(w, env) && Enabled(w, env, m) && Faithful(env.query) && Stampable(env.ts)
    requires DistinctRecords(Apply(w, env, m)) && CursorsBy(w, env.ts)
    ensures NewOpen(w, Apply(w, env, m))
  {
    var w' := Apply(w, env, m);
    MoveGrows(w, env, m);
    MoveKeepsCursors(w, env, m);
    forall id | id in w'.book.pays && id !in w.book.pays ensures PayOpen(w', id) {
      assert DistinctTimes(PayTimes(w'.book.pays, w'.book.pays[id].merchant));
      NewPayOpen(w, env, w', id);
    }
    forall id | id in w'.book.fees && id !in w.book.fees ensures FeeOpen(w', id) {
      assert DistinctTimes(FeeTimes(w'.book.fees, w'.book.fees[id].code));
      NewFeeOpen(w, env, w', id);
    }
  }

  lemma PayPruneFilesNoPay(w: World, env: Env, m: Move)
    requires Inv(w) && m.MPayPrune? && Enabled(w, env, m) && Faithful(env.query)
    ensures Apply(w, env, m).book.pays == w.book.pays
    ensures forall c :: FeeCursor(Apply(w, env, m), c) == FeeCursor(w, c)
  {
    PayPruneTimes(w, env, m.a, m.end);
  }

  lemma FeePruneFilesNothing(w: World, env: Env, m: Move)
    requires m.MFeePrune? && Enabled(w, env, m)
    ensures Apply(w, env, m).book.pays == w.book.pays && Apply(w, env, m).book.fees == w.book.fees
  {
  }

  /** Only a move that files no pay moves a pay cursor, and likewise for fees. */
  lemma MoveKeepsCursors(w: World, env: Env, m: Move)
    requires Inv(w) && Enabled(w, env, m) && Faithful(env.query) && NewIds(w, env)
    ensures var w' := Apply(w, env, m);
            w'.book.pays == w.book.pays || forall a :: PayCursor(w'.book.balances, a) == PayCursor(w.book.balances, a)
    ensures var w' := Apply(w, env, m);
            w'.book.fees == w.book.fees || forall c :: FeeCursor(w', c) == FeeCursor(w, c)
  {
    if m.MPayPrune? {
      PayPruneFilesNoPay(w, env, m);
    } else if m.MFeePrune? {
      FeePruneFilesNothing(w, env, m);
    } else {
      MoveGrows(w, env, m);
      OnlyPrunesMoveCursors(w, env, m);
      KeptCursorTimes(w, Apply(w, env, m));
    }
  }

  /** A prune up to t leaves every cursor at or before t. */
  lemma PayPruneAdvance(w: World, env: Env, m: Move, t: Time)
    requires Inv(w) && m.MPayPrune? && Enabled(w, env, m) && Faithful(env.query) && CursorsBy(w, t) && m.end <= t
    ensures CursorsBy(Apply(w, env, m), t)
  {
    PayPruneTimes(w, env, m.a, m.end);
  }

  lemma FeePruneAdvance(w: World, env: Env, m: Move, t: Time)
    requires Inv(w) && m.MFeePrune? && Enabled(w, env, m) && Faithful(env.query) && CursorsBy(w, t) && m.end <= t
    ensures CursorsBy(Apply(w, env, m), t)
  {
    FeePruneTimes(w, env, m.code, m.end);
  }

  lemma MoveAdvance(w: World, env: Env, m: Move, t: Time)
    requires Inv(w) && NewIds(w, env) && Enabled(w, env, m) && Faithful(env.query) && CursorsBy(w, t)
    requires m.MPayPrune? || m.MFeePrune? ==> m.end <= t
    ensures CursorsBy(Apply(w, env, m), t)
  {
    if m.MPayPrune? {
      PayPruneAdvance(w, env, m, t);
    } else if m.MFeePrune? {
      FeePruneAdvance(w, env, m, t);
    } else {
      MoveGrows(w, env, m);
      OnlyPrunesMoveCursors(w, env, m);
      KeptCursorTimes(w, Apply(w, env, m));
    }
  }

  /** A prune move comes from a prune transaction, with that transaction's window. */
  lemma PruneOf(w: World, env: Env, tx: Tx)
    ensures var m := MoveOf(w, env, tx);
            m.MPayPrune? || m.MFeePrune? ==>
              (tx.PayPrune? || tx.FeePrune?) && m.end == PruneEnd(env.ts, tx.safe, tx.endSeconds)
  {
  }

  lemma DistinctPageClean(w: World, env: Env, m: Move)
    requires Enabled(w, env, m) && Faithful(env.query) && DistinctRecords(w)
    ensures PageClean(w, env, m)
  {
    if m.MPayPrune? {
      assert Answers(PayTimes(w.book.pays, m.a), PayCursor(w.book.balances, m.a), m.end,
                     RowsOfPays(w, env, m.a, m.end));
      DistinctIsClean(PayTimes(w.book.pays, m.a), PayCursor(w.book.balances, m.a), m.end,
                      RowsOfPays(w, env, m.a, m.end));
    } else if m.MFeePrune? {
      assert Answers(FeeTimes(w.book.fees, m.code), FeeCursor(w, m.code), m.end, RowsOfFees(w, env, m.code, m.end));
      DistinctIsClean(FeeTimes(w.book.fees, m.code), FeeCursor(w, m.code), m.end, RowsOfFees(w, env, m.code, m.end));
    }
  }

  /** Using up the transaction id changes no record and no cursor. */
  lemma CommitKeepsRecords(w: World, w': World, txs: set<string>, t: Time)
    ensures NewOpen(w, w') ==> NewOpen(w, w'.(txs := txs))
    ensures CursorsBy(w', t) ==> CursorsBy(w'.(txs := txs), t)
    ensures DistinctRecords(w'.(txs := txs)) ==> DistinctRecords(w')
  {
    var x := w'.(txs := txs);
    assert forall c :: FeeCursor(x, c) == FeeCursor(w', c);
    assert x.book == w'.book;
  }

  /** One event of a skewed run. t is how far cursors may have come: five minutes before the event's place. */
  lemma SkewedMove(w: World, env: Env, m: Move, t: Time)
    requires Inv(w) && Admitted(w, env) && NewIds(w, env) && Enabled(w, env, m) && CursorsBy(w, t) && t <= env.ts
    requires m.MPayPrune? || m.MFeePrune? ==> m.end <= t
    requires DistinctRecords(Apply(w, env, m))
    ensures PageClean(w, env, m) && NewOpen(w, Apply(w, env, m)) && CursorsBy(Apply(w, env, m), t)
  {
    MoveGrows(w, env, m);
    DistinctBefore(w, env, Apply(w, env, m));
    DistinctPageClean(w, env, m);
    assert CursorsBy(w, env.ts);
    MoveFilesOpen(w, env, m);
    MoveAdvance(w, env, m, t);
  }

  lemma SkewedStep(w: World, e: Event, t: Time)
    requires Inv(w) && Admitted(w, e.env) && CursorsBy(w, t)
    requires t <= e.env.ts <= t + 2 * SKEW
    requires e.tx.PayPrune? || e.tx.FeePrune? ==> e.tx.safe
    requires DistinctRecords(Next(w, e.env, e.tx))
    ensures Timely(w, e) && CursorsBy(Next(w, e.env, e.tx), t)
  {
    if Succeeds(w, e) {
      var m := MoveOf(w, e.env, e.tx);
      InvStep(w, e.env, e.tx);
      PruneOf(w, e.env, e.tx);
      CommitKeepsRecords(w, Apply(w, e.env, m), w.txs + {e.env.txId}, t);
      SkewedMove(w, e.env, m, t);
    }
  }

  /** With clocks within five minutes, safe prunes and distinct record times, every record lands above
      its cursor and no page loses one. */
  lemma {:induction false} SkewedRunIsTimely(w: World, es: seq<Event>, truth: seq<Time>)
    requires Inv(w) && AdmittedRun(w, es) && Skewed(es, truth) && SafePrunes(es)
    requires DistinctRecords(Run(w, es))
    requires es != [] ==> CursorsBy(w, truth[0] - SKEW)
    ensures TimelyRun(w, es)
    ensures es != [] ==> CursorsBy(Run(w, es), truth[|es| - 1] - SKEW)
    ensures DistinctRecords(w)
    decreases |es|
  {
    if es != [] {
      var n := |es| - 1;
      var front, e, t := es[..n], es[n], truth[n] - SKEW;
      var x := Run(w, front);
      RunInv(w, front);
      SkewedPrefix(es, truth);
      DistinctGoesBack(x, e);
      SkewedRunIsTimely(w, front, truth[..n]);
      assert CursorsBy(x, t) by {
        if front != [] { assert CursorsBy(x, truth[n - 1] - SKEW); }
      }
      SkewedStep(x, e, t);
    }
  }

  lemma SkewedPrefix(es: seq<Event>, truth: seq<Time>)
    requires Skewed(es, truth) && SafePrunes(es) && es != []
    ensures Skewed(es[..|es| - 1], truth[..|es| - 1]) && SafePrunes(es[..|es| - 1])
  {
  }

  lemma DistinctGoesBack(w: World, e: Event)
    requires Inv(w) && Admitted(w, e.env) && DistinctRecords(Next(w, e.env, e.tx))
    ensures DistinctRecords(w)
  {
    if Succeeds(w, e) {
      InvStep(w, e.env, e.tx);
      DistinctBefore(w, e.env, Next(w, e.env, e.tx));
    }
  }

  /** Exactly-once pruning under clock skew: each pay or fee record filed in the run is credited by
      exactly one prune, or is still above its cursor. */
  lemma SafePruningIsExactlyOnce(w: World, es: seq<Event>, truth: seq<Time>, id: string)
    requires Inv(w) && AdmittedRun(w, es) && Skewed(es, truth) && SafePrunes(es)
    requires DistinctRecords(Run(w, es))
    requires es != [] ==> CursorsBy(w, truth[0] - SKEW)
    ensures var w' := Run(w, es);
            && multiset(PayCredits(w, es))[id] + Once(PayOpen(w', id)) == Once(id in w'.book.pays && PayOwed(w, id))
            && multiset(FeeCredits(w, es))[id] + Once(FeeOpen(w', id)) == Once(id in w'.book.fees && FeeOwed(w, id))
  {
    SkewedRunIsTimely(w, es, truth);
    PaysCreditedOnce(w, es, id);
    FeesCreditedOnce(w, es, id);
  }

  // ---- conservation under clock skew ----

  lemma RecordLands(w: World, env: Env, m: Move)
    requires NewIds(w, env) && Enabled(w, env, m) && !m.MFeePrune? && !m.MPayPrune?
    requires var w' := Apply(w, env, m);
             && (forall a :: PayCursor(w'.book.balances, a) == PayCursor(w.book.balances, a))
             && (forall c :: FeeCursor(w', c) == FeeCursor(w, c))
             && (env.recordId in w'.book.pays ==> PayOpen(w', env.recordId))
             && (env.recordId in w'.book.fees ==> FeeOpen(w', env.recordId))
    ensures Lands(w, env, m)
  {
  }

  /** A record found open after its move was filed above its cursor. */
  lemma OpenLands(w: World, env: Env, m: Move)
    requires Inv(w) && NewIds(w, env) && Enabled(w, env, m) && Faithful(env.query) && !m.MFeePrune?
    requires NewOpen(w, Apply(w, env, m))
    ensures Lands(w, env, m)
  {
    var w', id := Apply(w, env, m), env.recordId;
    assert id in w'.book.pays ==> PayOpen(w', id);
    assert id in w'.book.fees ==> FeeOpen(w', id);
    if m.MPayPrune? {
      PayPruneTimes(w, env, m.a, m.end);
    } else {
      MoveGrows(w, env, m);
      OnlyPrunesMoveCursors(w, env, m);
      KeptCursorTimes(w, w');
      RecordLands(w, env, m);
    }
  }

  lemma TimelyIsCareful(w: World, e: Event)
    requires Inv(w) && Admitted(w, e.env) && Timely(w, e) && HomeTarget(w, e.tx)
    ensures Careful(w, e)
  {
    if Succeeds(w, e) {
      var m := MoveOf(w, e.env, e.tx);
      InvStep(w, e.env, e.tx);
      FeePruneOf(w, e.env, e.tx);
      if !m.MFeePrune? {
        CommitShowsOpen(w, Apply(w, e.env, m), w.txs + {e.env.txId});
        OpenLands(w, e.env, m);
      }
    }
  }

  lemma CommitShowsOpen(w: World, w': World, txs: set<string>)
    ensures NewOpen(w, w'.(txs := txs)) ==> NewOpen(w, w')
  {
    var x := w'.(txs := txs);
    assert x.book == w'.book && forall c :: FeeCursor(x, c) == FeeCursor(w', c);
  }

  lemma {:induction false} TimelyRunIsCareful(w: World, es: seq<Event>)
    requires Inv(w) && AdmittedRun(w, es) && TimelyRun(w, es) && HomeTargets(w, es)
    ensures CarefulRun(w, es)
    decreases |es|
  {
    if es != [] {
      var front, e := es[..|es| - 1], es[|es| - 1];
      TimelyRunIsCareful(w, front);
      RunInv(w, front);
      TimelyIsCareful(Run(w, front), e);
    }
  }

  /** With clocks within five minutes, safe prunes, distinct record times and fee targets of their own
      token, the supply of every token stays the sum of its balances, escrow, unspent pays and unspent fees. */
  lemma SkewedRunConserves(w: World, es: seq<Event>, truth: seq<Time>, c: string)
    requires Inv(w) && AdmittedRun(w, es) && Skewed(es, truth) && SafePrunes(es) && HomeTargets(w, es)
    requires DistinctRecords(Run(w, es))
    requires es != [] ==> CursorsBy(w, truth[0] - SKEW)
    requires Total(w, c) == SupplyOf(w, c)
    ensures Total(Run(w, es), c) == SupplyOf(Run(w, es), c)
  {
    SkewedRunIsTimely(w, es, truth);
    TimelyRunIsCareful(w, es);
    ValueConserved(w, es, c);
  }
}
