// Record ids are a printed nanosecond time followed by the transaction id. The prune cursors
// store such an id and read the time back by slicing it.
module Stamps {
  import opened Basics

  const TEN18: int := 1_000_000_000_000_000_000
  const MAX_INT64: int := 0x7FFF_FFFF_FFFF_FFFF

  /** The times whose printed form has nineteen digits: 9 September 2001 up to the last int64. */
  predicate Stampable(t: Time) {
    TEN18 <= t <= MAX_INT64
  }

  function Pow10(n: nat): nat {
    if n == 0 then 1 else 10 * Pow10(n - 1)
  }

  function Digit(d: nat): char
    requires d < 10
  {
    '0' + d as char
  }

  predicate IsDigit(c: char) {
    '0' <= c <= '9'
  }

  /** Go's %d of a non-negative number. */
  function Decimal(n: nat): string {
    if n < 10 then [Digit(n)] else Decimal(n / 10) + [Digit(n % 10)]
  }

  /** strconv.ParseInt in base ten, for the unsigned strings that occur in ids. */
  function ParseDigits(s: string): Option<nat> {
    if s == [] then None
    else if !IsDigit(s[|s| - 1]) then None
    else
      var d := (s[|s| - 1] - '0') as nat;
      if |s| == 1 then Some(d)
      else
        var front := ParseDigits(s[..|s| - 1]);
        if front.None? then None else Some(10 * front.value + d)
  }

  /** fmt.Sprintf("%d%s", ts.UnixNano(), txID) */
  function NewId(t: Time, txId: string): string {
    if t < 0 then "-" + Decimal(-t) + txId else Decimal(t) + txId
  }

  /** The start of a prune window: seconds from id[0:10], nanoseconds from id[10:19], and the epoch
      when there is no id yet. None stands for a failed slice or a failed parse. */
  function CursorTime(id: string): Option<Time> {
    if id == "" then Some(0)
    else if |id| < 19 then None
    else
      var s := ParseDigits(id[0..10]);
      var n := ParseDigits(id[10..19]);
      if s.None? || n.None? then None else Some(s.value * SECOND + n.value)
  }

  lemma {:induction false} DecimalParses(n: nat)
    ensures |Decimal(n)| > 0
    ensures ParseDigits(Decimal(n)) == Some(n)
  {
    if n >= 10 {
      DecimalParses(n / 10);
      assert Decimal(n)[..|Decimal(n)| - 1] == Decimal(n / 10);
    }
  }

  lemma {:induction false} DecimalLength(n: nat, k: nat)
    requires n < Pow10(k + 1) && (k > 0 ==> Pow10(k) <= n)
    ensures |Decimal(n)| == k + 1
  {
    if k > 0 {
      if n < 10 {
        Pow10Monotone(1, k);
      }
      DecimalLength(n / 10, k - 1);
    }
  }

  lemma {:induction false} Pow10Monotone(a: nat, b: nat)
    requires a <= b
    ensures Pow10(a) <= Pow10(b)
  {
    if a < b { Pow10Monotone(a, b - 1); }
  }

  lemma ShiftDigit(x: int, y: int, p: int, d: int)
    ensures 10 * (x * p + y) + d == x * (10 * p) + (10 * y + d)
  {
  }

  lemma ParseLast(s: string, c: char)
    requires s != []
    ensures ParseDigits(s + [c]) ==
            if IsDigit(c) && ParseDigits(s).Some? then Some(10 * ParseDigits(s).value + (c - '0') as nat) else None
  {
    assert (s + [c])[..|s + [c]| - 1] == s;
  }

  /** Splitting a digit string splits its value. */
  lemma {:induction false} ParseSplit(a: string, b: string)
    requires a != [] && b != []
    ensures ParseDigits(a).Some? && ParseDigits(b).Some? <==> ParseDigits(a + b).Some?
    ensures ParseDigits(a + b).Some? ==>
              ParseDigits(a + b).value == ParseDigits(a).value * Pow10(|b|) + ParseDigits(b).value
    decreases |b|
  {
    var front, c := b[..|b| - 1], b[|b| - 1];
    assert b == front + [c];
    if front == [] {
      assert Pow10(1) == 10 * Pow10(0);
      ParseLast(a, c);
      assert b == [c];
    } else {
      ParseSplit(a, front);
      assert a + b == (a + front) + [c];
      ParseLast(a + front, c);
      ParseLast(front, c);
      if ParseDigits(a + b).Some? {
        ShiftDigit(ParseDigits(a).value, ParseDigits(front).value, Pow10(|front|), (c - '0') as nat);
      }
    }
  }

  lemma PowersOfTen()
    ensures Pow10(9) == SECOND && Pow10(18) == TEN18 && Pow10(19) == 10 * TEN18
  {
    assert Pow10(3) == 1000;
    assert Pow10(6) == 1_000_000 by { assert Pow10(4) == 10_000; assert Pow10(5) == 100_000; }
    assert Pow10(9) == SECOND by { assert Pow10(7) == 10_000_000; assert Pow10(8) == 100_000_000; }
    assert Pow10(12) == 1_000_000_000_000 by {
      assert Pow10(10) == 10_000_000_000;
      assert Pow10(11) == 100_000_000_000;
    }
    assert Pow10(15) == 1_000_000_000_000_000 by {
      assert Pow10(13) == 10_000_000_000_000;
      assert Pow10(14) == 100_000_000_000_000;
    }
    assert Pow10(18) == TEN18 by {
      assert Pow10(16) == 10_000_000_000_000_000;
      assert Pow10(17) == 100_000_000_000_000_000;
    }
  }

  /** Slicing at ten and nineteen reads the first nineteen digits as one number. */
  lemma CursorIsPrefix(id: string)
    requires |id| >= 19
    ensures CursorTime(id) == (match ParseDigits(id[..19]) case None => None case Some(n) => Some(n))
  {
    PowersOfTen();
    assert id[..19] == id[0..10] + id[10..19];
    ParseSplit(id[0..10], id[10..19]);
  }

  /** The printed time of a stampable id fills its first nineteen characters, and the cursor is
      exactly that time whatever transaction id follows. */
  lemma CursorRoundTrip(t: Time, txId: string)
    requires Stampable(t)
    ensures CursorTime(NewId(t, txId)) == Some(t)
    ensures |NewId(t, txId)| >= 19 && NewId(t, txId)[..19] == Decimal(t) && NewId(t, txId)[19..] == txId
  {
    PowersOfTen();
    DecimalLength(t, 18);
    DecimalParses(t);
    assert NewId(t, txId)[..19] == Decimal(t);
    CursorIsPrefix(NewId(t, txId));
  }

  /** Ids of different transactions differ: the times take the same room in both. */
  lemma NewIdInjective(t: Time, txId: string, t': Time, txId': string)
    requires Stampable(t) && Stampable(t')
    ensures NewId(t, txId) == NewId(t', txId') <==> t == t' && txId == txId'
  {
    CursorRoundTrip(t, txId);
    CursorRoundTrip(t', txId');
  }

  /** Before nineteen digits are reached the slices swallow part of the transaction id, so the
      cursor is never right: the round trip holds exactly from 10^18 on. */
  lemma CursorRoundTripIff(t: Time, txId: string)
    requires 0 < t <= MAX_INT64
    ensures CursorTime(NewId(t, txId)) == Some(t) <==> Stampable(t)
  {
    if Stampable(t) {
      CursorRoundTrip(t, txId);
    } else {
      var id := NewId(t, txId);
      PowersOfTen();
      DecimalParses(t);
      ShortDecimal(t, 18);
      if |id| >= 19 {
        CursorIsPrefix(id);
        var rest := id[|Decimal(t)|..19];
        assert id[..19] == Decimal(t) + rest;
        ParseSplit(Decimal(t), rest);
        Pow10Monotone(1, |rest|);
        if ParseDigits(id[..19]).Some? {
          Larger(t, Pow10(|rest|), ParseDigits(rest).value);
        }
      }
    }
  }

  lemma Larger(t: int, p: int, r: int)
    requires t > 0 && p >= 10 && r >= 0
    ensures t * p + r > t
  {
    assert t * p >= t * 10;
  }

  lemma {:induction false} ShortDecimal(n: nat, k: nat)
    requires n < Pow10(k) && k > 0
    ensures |Decimal(n)| <= k
  {
    if n >= 10 { ShortDecimal(n / 10, k - 1); }
  }
}
