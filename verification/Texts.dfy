/** Texts in RADIUS attributes: names as sent, addresses in dotted form, the rate limit (service/radius_server.go). */
module Texts {
  import opened Domain
  import opened Keys
  import opened Packets

  /** How bytes spell characters; nothing is assumed of it. */
  type Decode = Bytes -> string

  // ---- Names ----

  /** The first attribute of a kind as trimmed text, whatever its length; empty if there is none. */
  function FirstText(decode: Decode, attrs: seq<Attr>, kind: byte): string {
    if attrs == [] then ""
    else if attrs[0].kind == kind then TrimSpace(decode(attrs[0].value))
    else FirstText(decode, attrs[1..], kind)
  }

  method FirstString(decode: Decode, attrs: seq<Attr>, kind: byte) returns (text: string)
    ensures text == FirstText(decode, attrs, kind)
  {
    var i := 0;
    while i < |attrs|
      invariant 0 <= i <= |attrs|
      invariant FirstText(decode, attrs, kind) == FirstText(decode, attrs[i..], kind)
    {
      if attrs[i].kind == kind {
        return TrimSpace(decode(attrs[i].value));
      }
      i := i + 1;
    }
    text := "";
  }

  // ---- Numbers ----

  function Digit(n: nat): char
    requires n < 10
  {
    '0' + n as char
  }

  function Decimal(n: nat): (s: string)
    ensures |s| > 0 && forall i | 0 <= i < |s| :: '0' <= s[i] <= '9'
  {
    if n < 10 then [Digit(n)] else Decimal(n / 10) + [Digit(n % 10)]
  }

  function SignedDecimal(n: int): string {
    if n < 0 then "-" + Decimal(-n) else Decimal(n)
  }

  function ValueOf(s: string): int {
    if s == "" then 0 else ValueOf(s[..|s| - 1]) * 10 + (s[|s| - 1] as int - '0' as int)
  }

  lemma {:induction false} DecimalValue(n: nat)
    ensures ValueOf(Decimal(n)) == n
  {
    var s := Decimal(n);
    if n < 10 {
      assert s[..0] == "";
    } else {
      DecimalValue(n / 10);
      assert s[..|s| - 1] == Decimal(n / 10);
    }
  }

  // ---- Addresses ----

  function Dotted(b: Bytes): string
    requires |b| == 4
  {
    Decimal(b[0] as nat)
        + ("." + (Decimal(b[1] as nat) + ("." + (Decimal(b[2] as nat) + ("." + Decimal(b[3] as nat))))))
  }

  /** The first four-byte attribute of a kind as an address; empty if there is none. */
  function FirstAddress(attrs: seq<Attr>, kind: byte): string {
    if attrs == [] then ""
    else if attrs[0].kind == kind && |attrs[0].value| == 4 then Dotted(attrs[0].value)
    else FirstAddress(attrs[1..], kind)
  }

  method FirstIP(attrs: seq<Attr>, kind: byte) returns (address: string)
    ensures address == FirstAddress(attrs, kind)
  {
    var i := 0;
    while i < |attrs|
      invariant 0 <= i <= |attrs|
      invariant FirstAddress(attrs, kind) == FirstAddress(attrs[i..], kind)
    {
      if attrs[i].kind == kind && |attrs[i].value| == 4 {
        return Dotted(attrs[i].value);
      }
      i := i + 1;
    }
    address := "";
  }

  lemma DotSplits(x: string, r: string, y: string, q: string)
    requires '.' !in x && '.' !in y && x + ("." + r) == y + ("." + q)
    ensures x == y && r == q
  {
    var left, right := x + ("." + r), y + ("." + q);
    assert left[|x|] == '.' && right[|y|] == '.';
    assert |x| == |y|;
    assert x == left[..|x|] && y == right[..|y|];
    assert r == left[|x| + 1..] && q == right[|y| + 1..];
  }

  lemma SameDecimal(m: nat, n: nat)
    requires Decimal(m) == Decimal(n)
    ensures m == n
  {
    DecimalValue(m);
    DecimalValue(n);
  }

  /** The text under which an access point is known determines its address. */
  lemma DottedTells(a: Bytes, b: Bytes)
    requires |a| == 4 && |b| == 4
    ensures Dotted(a) == Dotted(b) <==> a == b
  {
    if Dotted(a) == Dotted(b) {
      var ta := Decimal(a[2] as nat) + ("." + Decimal(a[3] as nat));
      var tb := Decimal(b[2] as nat) + ("." + Decimal(b[3] as nat));
      var sa, sb := Decimal(a[1] as nat) + ("." + ta), Decimal(b[1] as nat) + ("." + tb);
      DotSplits(Decimal(a[0] as nat), sa, Decimal(b[0] as nat), sb);
      DotSplits(Decimal(a[1] as nat), ta, Decimal(b[1] as nat), tb);
      DotSplits(Decimal(a[2] as nat), Decimal(a[3] as nat), Decimal(b[2] as nat), Decimal(b[3] as nat));
      SameDecimal(a[0] as nat, b[0] as nat);
      SameDecimal(a[1] as nat, b[1] as nat);
      SameDecimal(a[2] as nat, b[2] as nat);
      SameDecimal(a[3] as nat, b[3] as nat);
    }
  }

  // ---- The rate limit ----

  predicate Ascii(s: string) {
    forall i | 0 <= i < |s| :: s[i] < 128 as char
  }

  /** The bytes of an ASCII text. */
  function BytesOf(s: string): Bytes
    requires Ascii(s)
  {
    seq(|s|, i requires 0 <= i < |s| => s[i] as byte)
  }

  lemma SignedIsAscii(n: int)
    ensures Ascii(SignedDecimal(n))
  {
  }

  function RateText(p: Policy): (s: string)
    ensures Ascii(s)
  {
    SignedIsAscii(p.speedDownKbps);
    SignedIsAscii(p.speedUpKbps);
    SignedDecimal(p.speedDownKbps) + "k/" + SignedDecimal(p.speedUpKbps) + "k"
  }

  lemma {:induction false} DecimalLength(n: nat, digits: nat)
    requires digits > 0 && n < Power10(digits)
    ensures |Decimal(n)| <= digits
    decreases digits
  {
    if n >= 10 {
      DecimalLength(n / 10, digits - 1);
    }
  }

  function Power10(k: nat): nat {
    if k == 0 then 1 else 10 * Power10(k - 1)
  }

  /** Every speed of a 64-bit integer gives a rate text that one attribute can carry. */
  lemma RateIsShort(p: Policy)
    requires -0x8000_0000_0000_0000 <= p.speedDownKbps < 0x8000_0000_0000_0000
    requires -0x8000_0000_0000_0000 <= p.speedUpKbps < 0x8000_0000_0000_0000
    ensures |RateText(p)| <= 43
  {
    SignedLength(p.speedDownKbps);
    SignedLength(p.speedUpKbps);
  }

  lemma SignedLength(n: int)
    requires -0x8000_0000_0000_0000 <= n < 0x8000_0000_0000_0000
    ensures |SignedDecimal(n)| <= 20
  {
    assert Power10(4) == 10_000;
    assert Power10(8) == 100_000_000;
    assert Power10(12) == 1_000_000_000_000;
    assert Power10(16) == 10_000_000_000_000_000;
    assert Power10(19) == 10_000_000_000_000_000_000;
    DecimalLength(if n < 0 then -n else n, 19);
  }
}
