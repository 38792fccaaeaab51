// A prune query lists the records of one owner inside a time window in ascending time order; a prune
// takes at most 900 of them and moves the cursor to the last one taken. Pay and fee records share
// this design, so it is stated on a map from record id to created time.
module Paging {
  import opened Basics
  import opened Sums

  const PRUNE_SIZE: nat := 900

  /** rows is what the state database answers for start < created_time <= end. The order among
      records of equal time is the database's choice. */
  ghost predicate Answers(times: map<string, Time>, start: Time, end: Time, rows: seq<string>) {
    && Distinct(rows)
    && (forall id :: id in rows <==> id in times && start < times[id] <= end)
    && (forall i, j :: 0 <= i < j < |rows| ==> times[rows[i]] <= times[rows[j]])
  }

  function Page<T>(rows: seq<T>): seq<T> {
    rows[..Min(PRUNE_SIZE, |rows|)]
  }

  predicate HasMore<T>(rows: seq<T>) {
    |rows| > PRUNE_SIZE
  }

  /** The cursor after pruning the page of rows. */
  function PageEnd<T>(rows: seq<T>): T
    requires rows != []
  {
    Page(rows)[|Page(rows)| - 1]
  }

  /** The page does not end between two records of one time. */
  predicate CleanBoundary(times: map<string, Time>, rows: seq<string>) {
    |rows| > PRUNE_SIZE && rows[PRUNE_SIZE - 1] in times && rows[PRUNE_SIZE] in times ==>
      times[rows[PRUNE_SIZE - 1]] != times[rows[PRUNE_SIZE]]
  }

  ghost predicate DistinctTimes(times: map<string, Time>) {
    forall a, b :: a in times && b in times && a != b ==> times[a] != times[b]
  }

  /** A record above the old cursor that a prune neither takes nor leaves above the new cursor. */
  ghost predicate IsLost(times: map<string, Time>, start: Time, rows: seq<string>, id: string)
    requires rows != [] && PageEnd(rows) in times
  {
    id in times && start < times[id] <= times[PageEnd(rows)] && id !in Page(rows)
  }

  /** Every record the page takes was above the old cursor and is not above the new one. */
  lemma PageIsConsumed(times: map<string, Time>, start: Time, end: Time, rows: seq<string>)
    requires Answers(times, start, end, rows) && rows != []
    ensures PageEnd(rows) in Page(rows) && PageEnd(rows) in times
    ensures start < times[PageEnd(rows)] <= end
    ensures Distinct(Page(rows))
    ensures forall id :: id in Page(rows) ==> id in times && start < times[id] <= times[PageEnd(rows)]
  {
    var k := |Page(rows)| - 1;
    assert rows[k] == PageEnd(rows) && rows[k] in rows;
    forall id | id in Page(rows)
      ensures id in times && start < times[id] <= times[PageEnd(rows)]
    {
      var i :| 0 <= i <= k && rows[i] == id;
      assert rows[i] in rows;
    }
  }

  /** The records a prune loses are exactly those beyond the 900th that share its created time. */
  lemma LostExactly(times: map<string, Time>, start: Time, end: Time, rows: seq<string>, id: string)
    requires Answers(times, start, end, rows) && rows != []
    ensures PageEnd(rows) in times
    ensures IsLost(times, start, rows, id) <==>
            exists i :: PRUNE_SIZE <= i < |rows| && rows[i] == id && times[rows[i]] == times[rows[PRUNE_SIZE - 1]]
  {
    PageIsConsumed(times, start, end, rows);
    if IsLost(times, start, rows, id) {
      assert id in rows;
      var i :| 0 <= i < |rows| && rows[i] == id;
      assert times[rows[PRUNE_SIZE - 1]] <= times[rows[i]];
    }
    if i :| PRUNE_SIZE <= i < |rows| && rows[i] == id && times[rows[i]] == times[rows[PRUNE_SIZE - 1]] {
      assert rows[i] in rows;
    }
  }

  /** A prune loses nothing exactly when its page does not end between two records of one time. */
  lemma NothingLostIff(times: map<string, Time>, start: Time, end: Time, rows: seq<string>)
    requires Answers(times, start, end, rows) && rows != []
    ensures PageEnd(rows) in times
    ensures (forall id :: !IsLost(times, start, rows, id)) <==> CleanBoundary(times, rows)
  {
    PageIsConsumed(times, start, end, rows);
    if |rows| > PRUNE_SIZE {
      assert rows[PRUNE_SIZE] in rows && rows[PRUNE_SIZE - 1] in rows;
      assert times[rows[PRUNE_SIZE - 1]] <= times[rows[PRUNE_SIZE]];
      assert forall i :: PRUNE_SIZE < i < |rows| ==> times[rows[PRUNE_SIZE]] <= times[rows[i]];
      if CleanBoundary(times, rows) {
        forall id ensures !IsLost(times, start, rows, id) {
          LostExactly(times, start, end, rows, id);
        }
      } else {
        LostExactly(times, start, end, rows, rows[PRUNE_SIZE]);
      }
    } else {
      forall id ensures !IsLost(times, start, rows, id) {
        LostExactly(times, start, end, rows, id);
      }
    }
  }

  /** Above the old cursor, the page is exactly what lies at or below the new one. */
  lemma PageSplitsWindow(times: map<string, Time>, start: Time, end: Time, rows: seq<string>)
    requires Answers(times, start, end, rows) && rows != [] && CleanBoundary(times, rows)
    ensures PageEnd(rows) in times && start < times[PageEnd(rows)] <= end
    ensures forall id :: id in times ==>
              (id in Page(rows) <==> start < times[id] <= times[PageEnd(rows)])
  {
    PageIsConsumed(times, start, end, rows);
    NothingLostIff(times, start, end, rows);
    forall id | id in times
      ensures id in Page(rows) <==> start < times[id] <= times[PageEnd(rows)]
    {
      assert !IsLost(times, start, rows, id);
    }
  }

  /** How far a prune reaches in its rows: past the page, through the records that share the time of
      its last one. The page is taken; the rest of this stretch is lost. */
  function Reach(times: map<string, Time>, rows: seq<string>, from: nat): nat
    requires 0 < from <= |rows|
    ensures from <= Reach(times, rows, from) <= |rows|
    decreases |rows| - from
  {
    if from < |rows| && rows[from] in times && rows[from - 1] in times && times[rows[from]] == times[rows[from - 1]]
    then Reach(times, rows, from + 1) else from
  }

  /** The records the prune of these rows loses. */
  function LostRows(times: map<string, Time>, rows: seq<string>): seq<string>
    requires rows != []
  {
    rows[|Page(rows)|..Reach(times, rows, |Page(rows)|)]
  }

  lemma {:induction false} ReachIsTie(times: map<string, Time>, start: Time, end: Time, rows: seq<string>, from: nat)
    requires Answers(times, start, end, rows) && 0 < from <= |rows|
    ensures var n := Reach(times, rows, from);
            (forall i :: from - 1 <= i < n ==> times[rows[i]] == times[rows[from - 1]]) &&
            (forall i :: n <= i < |rows| ==> times[rows[from - 1]] < times[rows[i]])
    decreases |rows| - from
  {
    assert forall i :: 0 <= i < |rows| ==> rows[i] in rows;
    if Reach(times, rows, from) > from {
      ReachIsTie(times, start, end, rows, from + 1);
    }
  }

  /** What lies above the old cursor and at or below the new one is the page and the lost rows. */
  lemma ReachSplitsWindow(times: map<string, Time>, start: Time, end: Time, rows: seq<string>)
    requires Answers(times, start, end, rows) && rows != []
    ensures PageEnd(rows) in times && start < times[PageEnd(rows)] <= end
    ensures Distinct(Page(rows) + LostRows(times, rows))
    ensures forall id :: id in times ==>
              (id in Page(rows) + LostRows(times, rows) <==> start < times[id] <= times[PageEnd(rows)])
    ensures CleanBoundary(times, rows) <==> LostRows(times, rows) == []
  {
    PageIsConsumed(times, start, end, rows);
    var k := |Page(rows)|;
    var n := Reach(times, rows, k);
    ReachIsTie(times, start, end, rows, k);
    assert Page(rows) + LostRows(times, rows) == rows[..n];
    assert forall i :: 0 <= i < |rows| ==> rows[i] in rows;
    assert rows[k - 1] == PageEnd(rows);
    forall id | id in times
      ensures id in rows[..n] <==> start < times[id] <= times[PageEnd(rows)]
    {
      if id in rows[..n] {
        var i :| 0 <= i < n && rows[i] == id;
        assert i < k - 1 ==> times[rows[i]] <= times[rows[k - 1]];
      }
      if start < times[id] <= times[PageEnd(rows)] {
        assert id in rows;
        var i :| 0 <= i < |rows| && rows[i] == id;
        assert i < n;
        assert rows[..n][i] == id;
      }
    }
  }

  lemma DistinctIsClean(times: map<string, Time>, start: Time, end: Time, rows: seq<string>)
    requires Answers(times, start, end, rows) && DistinctTimes(times)
    ensures CleanBoundary(times, rows)
  {
    if |rows| > PRUNE_SIZE {
      assert rows[PRUNE_SIZE - 1] in rows && rows[PRUNE_SIZE] in rows;
    }
  }

  /** With distinct times the database has no choice left. */
  lemma {:induction false} AnswerUnique(times: map<string, Time>, start: Time, end: Time, a: seq<string>,
                                        b: seq<string>)
    requires Answers(times, start, end, a) && Answers(times, start, end, b) && DistinctTimes(times)
    ensures a == b
    decreases |a|
  {
    assert forall id :: id in a <==> id in b;
    assert a != [] ==> a[0] in a;
    assert b != [] ==> b[0] in b;
    if a != [] {
      assert a[0] in a && b[0] in b && a[0] in b && b[0] in a;
      var i :| 0 <= i < |b| && b[i] == a[0];
      var j :| 0 <= j < |a| && a[j] == b[0];
      assert a[0] == b[0];
      RestAnswers(times, start, end, a);
      RestAnswers(times, start, end, b);
      AnswerUnique(times, times[a[0]], end, a[1..], b[1..]);
    }
  }

  lemma RestAnswers(times: map<string, Time>, start: Time, end: Time, a: seq<string>)
    requires Answers(times, start, end, a) && DistinctTimes(times) && a != []
    ensures a[0] in times && Answers(times, times[a[0]], end, a[1..])
  {
    assert a[0] in a;
    DropAnswers(times, start, end, a, 1);
  }

  /** What is left of an answer after its first n rows answers the window that starts at row n - 1. */
  lemma DropAnswers(times: map<string, Time>, start: Time, end: Time, a: seq<string>, n: nat)
    requires Answers(times, start, end, a) && DistinctTimes(times) && 0 < n <= |a|
    ensures a[n - 1] in times && Answers(times, times[a[n - 1]], end, a[n..])
  {
    assert a[n - 1] in a;
    var rest := a[n..];
    forall id
      ensures id in rest <==> id in times && times[a[n - 1]] < times[id] <= end
    {
      if id in rest {
        var i :| 0 <= i < |rest| && rest[i] == id;
        assert id == a[n + i] && id in a;
        assert times[a[n - 1]] <= times[a[n + i]] && a[n - 1] != a[n + i];
      }
      if id in times && times[a[n - 1]] < times[id] <= end {
        assert id in a;
        var i :| 0 <= i < |a| && a[i] == id;
        assert a[i] == rest[i - n];
      }
    }
  }

  /** Every query can be answered. */
  lemma {:induction false} AnswerExists(times: map<string, Time>, start: Time, end: Time) returns (rows: seq<string>)
    ensures Answers(times, start, end, rows)
    decreases |times|
  {
    if forall id :: id in times ==> !(start < times[id] <= end) {
      rows := [];
    } else {
      var last :| last in times && start < times[last] <= end;
      last := Latest(times, start, end, last);
      assert (times - {last}).Keys == times.Keys - {last};
      var front := AnswerExists(times - {last}, start, end);
      rows := front + [last];
      assert last !in front;
      assert forall i :: 0 <= i < |front| ==> front[i] in front && rows[i] == front[i];
      assert forall id :: id in rows <==> id in front || id == last;
      assert forall i, j :: 0 <= i < j < |front| ==> (times - {last})[front[i]] <= (times - {last})[front[j]];
    }
  }

  lemma {:induction false} Latest(times: map<string, Time>, start: Time, end: Time, from: string) returns (last: string)
    requires from in times && start < times[from] <= end
    ensures last in times && start < times[last] <= end
    ensures forall id :: id in times && times[id] <= end ==> times[id] <= times[last]
    decreases end - times[from]
  {
    if id :| id in times && times[from] < times[id] <= end {
      last := Latest(times, start, end, id);
    } else {
      last := from;
    }
  }

  // ---- repeated prunes ----

  /** The answers seen by repeated successful prunes up to one end time: each query starts at the
      cursor the previous prune left. */
  ghost predicate PruneChain(times: map<string, Time>, start: Time, end: Time, answers: seq<seq<string>>)
    decreases |answers|
  {
    answers == [] ||
    (Answers(times, start, end, answers[0]) && answers[0] != [] && PageEnd(answers[0]) in times &&
     PruneChain(times, times[PageEnd(answers[0])], end, answers[1..]))
  }

  /** The cursor after the prunes of a chain. */
  ghost function ChainCursor(times: map<string, Time>, start: Time, answers: seq<seq<string>>): Time
    decreases |answers|
  {
    if answers == [] || answers[0] == [] || PageEnd(answers[0]) !in times then start
    else ChainCursor(times, times[PageEnd(answers[0])], answers[1..])
  }

  /** The records credited by a chain of prunes, in order. */
  function ChainPages(answers: seq<seq<string>>): seq<string> {
    if answers == [] then [] else Page(answers[0]) + ChainPages(answers[1..])
  }

  /** A chain grows at its front by one prune. */
  lemma ChainCons(times: map<string, Time>, start: Time, end: Time, first: seq<string>, rest: seq<seq<string>>)
    requires Answers(times, start, end, first) && first != [] && PageEnd(first) in times
    requires PruneChain(times, times[PageEnd(first)], end, rest)
    ensures PruneChain(times, start, end, [first] + rest)
    ensures ChainCursor(times, start, [first] + rest) == ChainCursor(times, times[PageEnd(first)], rest)
    ensures ChainPages([first] + rest) == Page(first) + ChainPages(rest)
  {
    assert ([first] + rest)[1..] == rest;
  }

  function CeilDiv(n: nat, d: Pos): nat {
    (n + d - 1) / d
  }

  /** Repeated prunes refine one sum over the whole window: when the chain ends (the next query is
      empty), the pages put together are the answer to one query over the window, it took exactly
      ceil(n / 900) prunes, and has_more was reported by every prune but the last. */
  lemma {:induction false} ChainRefinesWindow(times: map<string, Time>, start: Time, end: Time,
                                              rows: seq<string>, answers: seq<seq<string>>)
    requires DistinctTimes(times) && Answers(times, start, end, rows)
    requires PruneChain(times, start, end, answers)
    requires Answers(times, ChainCursor(times, start, answers), end, [])
    ensures ChainPages(answers) == rows
    ensures |answers| == CeilDiv(|rows|, PRUNE_SIZE)
    ensures forall i :: 0 <= i < |answers| ==> (HasMore(answers[i]) <==> i < |answers| - 1)
    decreases |answers|
  {
    if answers == [] {
      AnswerUnique(times, start, end, rows, []);
    } else {
      AnswerUnique(times, start, end, rows, answers[0]);
      var n := |Page(rows)|;
      DropAnswers(times, start, end, rows, n);
      assert rows[n - 1] == PageEnd(rows);
      ChainRefinesWindow(times, times[PageEnd(rows)], end, rows[n..], answers[1..]);
      assert rows == Page(rows) + rows[n..];
      assert forall i :: 0 < i < |answers| ==> answers[i] == answers[1..][i - 1];
    }
  }

  /** What a chain has credited so far is the first records of the window, 900 for each prune. */
  lemma {:induction false} ChainCredits(times: map<string, Time>, start: Time, end: Time,
                                        rows: seq<string>, answers: seq<seq<string>>)
    requires DistinctTimes(times) && Answers(times, start, end, rows)
    requires PruneChain(times, start, end, answers)
    ensures ChainPages(answers) == rows[..Min(|answers| * PRUNE_SIZE, |rows|)]
    decreases |answers|
  {
    if answers != [] {
      AnswerUnique(times, start, end, rows, answers[0]);
      var n := |Page(rows)|;
      DropAnswers(times, start, end, rows, n);
      var rest := rows[n..];
      ChainCredits(times, times[PageEnd(rows)], end, rest, answers[1..]);
      PrefixOfPage(rows, |answers|);
    }
  }

  lemma PrefixOfPage(rows: seq<string>, k: nat)
    requires k > 0
    ensures var rest := rows[|Page(rows)|..];
            rows[..Min(k * PRUNE_SIZE, |rows|)] == Page(rows) + rest[..Min((k - 1) * PRUNE_SIZE, |rest|)]
  {
  }

  /** While a chain has not used up the window another prune succeeds, so it can always be finished. */
  lemma {:induction false} ChainProgress(times: map<string, Time>, start: Time, end: Time,
                                         rows: seq<string>, answers: seq<seq<string>>)
    requires DistinctTimes(times) && Answers(times, start, end, rows)
    requires PruneChain(times, start, end, answers)
    ensures Answers(times, ChainCursor(times, start, answers), end, []) <==> |answers| * PRUNE_SIZE >= |rows|
    decreases |answers|
  {
    if answers == [] {
      assert rows != [] ==> rows[0] in rows;
    } else {
      AnswerUnique(times, start, end, rows, answers[0]);
      var n := |Page(rows)|;
      DropAnswers(times, start, end, rows, n);
      ChainProgress(times, times[PageEnd(rows)], end, rows[n..], answers[1..]);
    }
  }
}
