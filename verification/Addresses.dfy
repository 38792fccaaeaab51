// Account addresses: a token code followed by fifty hex digits, which are the account type, twenty bytes
// of identity and a four-byte checksum. The digest behind the checksum stays abstract.
module Addresses {
  import opened Basics
  import World

  type Byte = x: int | 0 <= x < 256

  /** SHAKE256: a digest of any length asked for. */
  type Shake = (seq<Byte>, nat) -> seq<Byte>

  ghost predicate IsShake(shake: Shake) {
    forall data: seq<Byte>, n: nat :: |shake(data, n)| == n
  }

  const PERSONAL: Byte := 1
  const JOINT: Byte := 2

  /** An address as the chaincode holds it; hash is the identity with its checksum. */
  datatype RawAddress = RawAddress(code: string, kind: Byte, hash: seq<Byte>)

  // ---- text ----

  function UpperChar(c: char): char {
    if 'a' <= c <= 'z' then c - 'a' + 'A' else c
  }

  function LowerChar(c: char): char {
    if 'A' <= c <= 'Z' then c - 'A' + 'a' else c
  }

  function Upper(s: string): (r: string)
    ensures |r| == |s| && forall i :: 0 <= i < |s| ==> r[i] == UpperChar(s[i])
  {
    seq(|s|, i requires 0 <= i < |s| => UpperChar(s[i]))
  }

  function Lower(s: string): (r: string)
    ensures |r| == |s| && forall i :: 0 <= i < |s| ==> r[i] == LowerChar(s[i])
  {
    seq(|s|, i requires 0 <= i < |s| => LowerChar(s[i]))
  }

  function BytesOf(s: string): seq<Byte> {
    seq(|s|, i requires 0 <= i < |s| => (s[i] as int) % 256)
  }

  // ---- hex ----

  function HexDigit(d: nat): (c: char)
    requires d < 16
  {
    if d < 10 then '0' + d as char else 'A' + (d - 10) as char
  }

  function HexValue(c: char): Option<nat> {
    if '0' <= c <= '9' then Some((c - '0') as nat)
    else if 'a' <= c <= 'f' then Some((c - 'a') as nat + 10)
    else if 'A' <= c <= 'F' then Some((c - 'A') as nat + 10)
    else None
  }

  /** Upper-case hex, two digits a byte. */
  function Hex(bytes: seq<Byte>): (s: string)
    ensures |s| == 2 * |bytes|
  {
    if bytes == [] then "" else [HexDigit(bytes[0] / 16), HexDigit(bytes[0] % 16)] + Hex(bytes[1..])
  }

  /** hex.DecodeString: digits of either case, an even number of them. */
  function Unhex(s: string): Option<seq<Byte>> {
    if s == "" then Some([])
    else if |s| == 1 then None
    else
      var high, low, rest := HexValue(s[0]), HexValue(s[1]), Unhex(s[2..]);
      if high.None? || low.None? || rest.None? then None
      else DigitBound(s[0]); DigitBound(s[1]); Some([16 * high.value + low.value] + rest.value)
  }

  lemma DigitBound(c: char)
    ensures HexValue(c).Some? ==> HexValue(c).value < 16 && HexDigit(HexValue(c).value) == UpperChar(c)
  {
  }

  lemma DigitRoundTrip(d: nat)
    requires d < 16
    ensures HexValue(HexDigit(d)) == Some(d) && UpperChar(HexDigit(d)) == HexDigit(d)
  {
  }

  lemma {:induction false} UnhexHex(bytes: seq<Byte>)
    ensures Unhex(Hex(bytes)) == Some(bytes)
    ensures Upper(Hex(bytes)) == Hex(bytes)
  {
    if bytes != [] {
      UnhexHex(bytes[1..]);
      DigitRoundTrip(bytes[0] / 16);
      DigitRoundTrip(bytes[0] % 16);
      var s := Hex(bytes);
      assert s[2..] == Hex(bytes[1..]);
      assert s[0] == HexDigit(bytes[0] / 16) && s[1] == HexDigit(bytes[0] % 16);
      assert Unhex(s) == Some([bytes[0]] + bytes[1..]);
      assert [bytes[0]] + bytes[1..] == bytes;
      forall i | 0 <= i < |s| ensures UpperChar(s[i]) == s[i] {
        if i >= 2 {
          assert s[i] == Hex(bytes[1..])[i - 2];
          assert Upper(Hex(bytes[1..]))[i - 2] == UpperChar(Hex(bytes[1..])[i - 2]);
        }
      }
    }
  }

  /** Decoding forgets exactly the case of the digits. */
  lemma {:induction false} HexUnhex(s: string)
    requires Unhex(s).Some?
    ensures Hex(Unhex(s).value) == Upper(s)
    ensures |s| == 2 * |Unhex(s).value|
    decreases |s|
  {
    if s != "" {
      HexUnhex(s[2..]);
      DigitBound(s[0]);
      DigitBound(s[1]);
      assert Upper(s)[2..] == Upper(s[2..]);
      assert Upper(s) == Upper(s)[..2] + Upper(s)[2..];
    }
  }

  lemma {:induction false} UnhexIgnoresCase(s: string)
    ensures Unhex(Upper(s)) == Unhex(s)
    decreases |s|
  {
    if |s| >= 2 {
      UnhexIgnoresCase(s[2..]);
      assert Upper(s)[2..] == Upper(s[2..]);
    }
  }

  lemma {:induction false} HexInjective(a: seq<Byte>, b: seq<Byte>)
    requires Hex(a) == Hex(b)
    ensures a == b
  {
    UnhexHex(a);
    UnhexHex(b);
  }

  lemma LowerUpper(s: string)
    ensures Lower(Upper(s)) == Lower(s)
  {
  }

  // ---- the operations ----

  predicate CodeChar(c: char) {
    'A' <= c <= 'Z' || '0' <= c <= '9'
  }

  /** ValidateTokenCode looks at the upper-cased code. */
  predicate CodeOk(code: string) {
    3 <= |code| <= 6 && forall i :: 0 <= i < |code| ==> CodeChar(UpperChar(code[i]))
  }

  function Checksum(shake: Shake, code: string, kind: Byte, hash: seq<Byte>): seq<Byte> {
    shake(BytesOf(code) + [kind] + hash, 4)
  }

  /** Address.Validate, which is only ever asked of twenty-four bytes. */
  predicate Valid(shake: Shake, a: RawAddress) {
    |a.hash| == 24 && CodeOk(a.code) && PERSONAL <= a.kind <= JOINT &&
    a.hash[20..] == Checksum(shake, a.code, a.kind, a.hash[..20])
  }

  /** The identity of an id: the id itself when it is twenty bytes of hex, and otherwise its digest. */
  function Identity(shake: Shake, id: string): seq<Byte> {
    var idh := Unhex(id);
    if idh.None? || |idh.value| != 20 then shake(BytesOf(id), 20) else idh.value
  }

  function NewAddress(shake: Shake, code: string, kind: Byte, id: string): RawAddress {
    var idh := Identity(shake, id);
    RawAddress(code, kind, idh + Checksum(shake, code, kind, idh))
  }

  function Print(a: RawAddress): string {
    a.code + Hex([a.kind] + a.hash)
  }

  function Parse(shake: Shake, text: string): Result<RawAddress> {
    var s := Upper(text);
    if |s| < 50 then Err("length")
    else
      var i := |s| - 50;
      var idh := Unhex(s[i..]);
      if idh.None? || idh.value == [] then Err("hex")
      else
        var a := RawAddress(s[..i], idh.value[0], idh.value[1..]);
        if Valid(shake, a) then Ok(a) else Err("invalid")
  }

  /** Address.ID */
  function Id(a: RawAddress): string
    requires |a.hash| == 24
  {
    Lower(Hex(a.hash[..20]))
  }

  /** Account.Holder, cut out of the printed address. */
  function Holder(printed: string): string
    requires |printed| >= 48
  {
    var i := |printed| - 48;
    Lower(printed[i..i + 40])
  }

  /** The ids for which an address is its own record: forty lower-case hex digits. */
  predicate Canonical(id: string) {
    |id| == 40 && Unhex(id).Some? && Lower(id) == id
  }

  // ---- round trips ----

  lemma PrintParts(a: RawAddress)
    requires |a.hash| == 24
    ensures |Print(a)| == |a.code| + 50
    ensures Print(a)[..|a.code|] == a.code && Print(a)[|a.code|..] == Hex([a.kind] + a.hash)
  {
  }

  lemma UpperAppend(s: string, t: string)
    ensures Upper(s + t) == Upper(s) + Upper(t)
  {
  }

  /** A valid address comes back from its printed form exactly when its code is in upper case. */
  lemma ParsePrint(shake: Shake, a: RawAddress)
    requires Valid(shake, a)
    ensures Parse(shake, Print(a)) == Ok(a) <==> Upper(a.code) == a.code
  {
    var h := Hex([a.kind] + a.hash);
    PrintParts(a);
    UnhexHex([a.kind] + a.hash);
    UpperAppend(a.code, h);
    ParseTail(shake, Print(a), [a.kind] + a.hash);
    assert Upper(Print(a))[..|a.code|] == Upper(a.code);
  }

  lemma ParseTail(shake: Shake, text: string, idh: seq<Byte>)
    requires |text| >= 50 && |idh| == 25 && Upper(text)[|text| - 50..] == Hex(idh)
    ensures var a := RawAddress(Upper(text)[..|text| - 50], idh[0], idh[1..]);
            Parse(shake, text) == if Valid(shake, a) then Ok(a) else Err("invalid")
  {
    UnhexHex(idh);
  }

  /** What is accepted prints back as its upper-cased self, and is a valid address. */
  lemma PrintParse(shake: Shake, text: string)
    requires Parse(shake, text).Ok?
    ensures Print(Parse(shake, text).value) == Upper(text)
    ensures Valid(shake, Parse(shake, text).value)
    ensures Parse(shake, Upper(text)) == Parse(shake, text)
  {
    var s, a := Upper(text), Parse(shake, text).value;
    var i := |s| - 50;
    HexUnhex(s[i..]);
    assert [a.kind] + a.hash == Unhex(s[i..]).value;
    assert Upper(s) == s;
    assert Upper(s[i..]) == s[i..];
    assert s == s[..i] + s[i..];
  }

  /** Printing is injective on addresses of twenty-four bytes. */
  lemma PrintInjective(a: RawAddress, b: RawAddress)
    requires |a.hash| == 24 && |b.hash| == 24 && Print(a) == Print(b)
    ensures a == b
  {
    PrintParts(a);
    PrintParts(b);
    HexInjective([a.kind] + a.hash, [b.kind] + b.hash);
    assert ([a.kind] + a.hash)[0] == ([b.kind] + b.hash)[0];
    assert ([a.kind] + a.hash)[1..] == a.hash && ([b.kind] + b.hash)[1..] == b.hash;
  }

  lemma NewIsValid(shake: Shake, code: string, kind: Byte, id: string)
    requires IsShake(shake) && CodeOk(code) && PERSONAL <= kind <= JOINT
    ensures Valid(shake, NewAddress(shake, code, kind, id))
    ensures |Identity(shake, id)| == 20 && NewAddress(shake, code, kind, id).hash[..20] == Identity(shake, id)
  {
    var idh := Identity(shake, id);
    assert |idh| == 20;
    assert (idh + Checksum(shake, code, kind, idh))[20..] == Checksum(shake, code, kind, idh);
  }

  lemma {:induction false} HexSplit(a: seq<Byte>, b: seq<Byte>)
    ensures Hex(a + b) == Hex(a) + Hex(b)
    decreases |a|
  {
    if a == [] {
      assert a + b == b;
    } else {
      assert (a + b)[1..] == a[1..] + b;
      HexSplit(a[1..], b);
    }
  }

  /** The holder cut out of a printed address is the address's id. */
  lemma HolderIsId(a: RawAddress)
    requires |a.hash| == 24
    ensures |Print(a)| >= 48 && Holder(Print(a)) == Id(a)
  {
    PrintParts(a);
    var head, tail := a.hash[..20], a.hash[20..];
    HexSplit([a.kind], a.hash);
    HexSplit(head, tail);
    assert a.hash == head + tail;
    assert Print(a) == (a.code + Hex([a.kind])) + Hex(head) + Hex(tail);
    var i := |Print(a)| - 48;
    assert Print(a)[i..i + 40] == Hex(head);
  }

  /** A personal account's holder is the id it was made from exactly when that is a Kiesnet id in its
      canonical form: forty lower-case hex digits. */
  lemma HolderRoundTrip(shake: Shake, code: string, kind: Byte, id: string)
    requires IsShake(shake) && CodeOk(code) && PERSONAL <= kind <= JOINT
    ensures var a := NewAddress(shake, code, kind, id);
            |Print(a)| >= 48 && (Holder(Print(a)) == id <==> Canonical(id))
  {
    var a, idh := NewAddress(shake, code, kind, id), Identity(shake, id);
    NewIsValid(shake, code, kind, id);
    HolderIsId(a);
    UnhexHex(idh);
    LowerIgnored(Hex(idh));
    if Unhex(id).Some? {
      HexUnhex(id);
      LowerUpper(id);
    }
  }

  /** Lower case spells the same bytes. */
  lemma {:induction false} LowerIgnored(s: string)
    ensures Unhex(Lower(s)) == Unhex(s)
    ensures Lower(Lower(s)) == Lower(s)
    decreases |s|
  {
    if |s| >= 2 {
      LowerIgnored(s[2..]);
      assert Lower(s)[2..] == Lower(s[2..]);
    }
  }

  // ---- the ledger's addresses ----

  function KindByte(kind: World.Kind): Byte {
    if kind == World.Personal then PERSONAL else JOINT
  }

  /** An address of the ledger model stands for this key of the state database. */
  function Key(shake: Shake, a: World.Address): string {
    Print(NewAddress(shake, a.code, KindByte(a.kind), a.id))
  }

  /** Keys tell accounts with canonical ids apart, whatever the digest. */
  lemma KeyInjective(shake: Shake, a: World.Address, b: World.Address)
    requires IsShake(shake) && CodeOk(a.code) && CodeOk(b.code) && Canonical(a.id) && Canonical(b.id)
    ensures Key(shake, a) == Key(shake, b) <==> a == b
  {
    if Key(shake, a) == Key(shake, b) {
      NewIsValid(shake, a.code, KindByte(a.kind), a.id);
      NewIsValid(shake, b.code, KindByte(b.kind), b.id);
      PrintInjective(NewAddress(shake, a.code, KindByte(a.kind), a.id),
                     NewAddress(shake, b.code, KindByte(b.kind), b.id));
      HolderRoundTrip(shake, a.code, KindByte(a.kind), a.id);
      HolderRoundTrip(shake, b.code, KindByte(b.kind), b.id);
    }
  }

  /** An address made from any id is the address made from its canonical id; for a joint account that is
      the digest of the transaction id. */
  lemma CanonicalId(shake: Shake, code: string, kind: Byte, id: string)
    requires IsShake(shake) && CodeOk(code) && PERSONAL <= kind <= JOINT
    ensures var a := NewAddress(shake, code, kind, id);
            |a.hash| == 24 && Canonical(Id(a)) && NewAddress(shake, code, kind, Id(a)) == a
  {
    var a := NewAddress(shake, code, kind, id);
    NewIsValid(shake, code, kind, id);
    UnhexHex(a.hash[..20]);
    LowerIgnored(Hex(a.hash[..20]));
  }

  /** NewAddress as it runs: decode or digest the id, then append the checksum to the buffer. */
  method BuildAddress(shake: Shake, code: string, kind: Byte, id: string) returns (a: RawAddress)
    requires IsShake(shake)
    ensures a == NewAddress(shake, code, kind, id)
    ensures |a.hash| == 24 && a.hash[20..] == Checksum(shake, code, kind, a.hash[..20])
  {
    var idh := Unhex(id);
    var buf: seq<Byte>;
    if idh.None? || |idh.value| != 20 {
      buf := shake(BytesOf(id), 20);
    } else {
      buf := idh.value;
    }
    var sum := Checksum(shake, code, kind, buf);
    assert |sum| == 4;
    buf := buf + sum;
    a := RawAddress(code, kind, buf);
  }
}
